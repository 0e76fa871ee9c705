/** When the one-to-one swap instructions are accepted (tags 0-3), in terms of payload bytes, record bytes and token
    accounts alone. */
module SwapAdmission {
  import opened Prelude
  import opened Bytes
  import opened Seeds
  import opened Layout
  import opened Ledger
  import opened FeeConfig
  import opened Payments
  import opened Machine
  import opened Shapes
  import opened Invariant
  import opened Carry
  import opened Admission
  import Lifecycle
  import Recovery
  import Royalty
  import Swaps

  // ---- opening a record with a vault ----

  /** The account can send the amount under this key: as its delegate within the allowance, or else as its owner. */
  predicate Spendable(t: Tokens, src: Key, mint: Key, key: Key, amount: nat) {
    && src in t && t[src].mint == mint && amount <= t[src].amount
    && if t[src].delegate == Some(key) then amount <= t[src].allowance else t[src].owner == key
  }

  /** The record and the vault are new, the mint is one, and the maker can send the amount. */
  predicate Lockable(e: Env, w: World, k: Key, vault: Key, mint: Key, src: Key, maker: Key, amount: nat) {
    && k !in w.records && k !in w.tokens && vault != k && vault !in w.records && vault !in w.tokens && mint in e.mints
    && Spendable(w.tokens, src, mint, maker, amount)
  }

  lemma FundingCarried(t: Tokens, vault: Key, mint: Key, owner: Key, src: Key, maker: Key, amount: nat)
    requires 0 < amount < U64
    ensures CarryOut(t, [Begin(vault, mint, owner)] + [Pay(src, mint, vault, maker, amount)]).Some? <==>
            (vault !in t && Spendable(t, src, mint, maker, amount))
  {
    CarryAppend(t, [Begin(vault, mint, owner)], [Pay(src, mint, vault, maker, amount)]);
    CarryOne(t, Begin(vault, mint, owner));
    if vault !in t {
      CarryOne(t[vault := Token(mint, owner, None, 0, 0)], Pay(src, mint, vault, maker, amount));
    }
  }

  /** A new vault, and the amount into it. */
  function FundTouches(k: Key, vault: Key, mint: Key, src: Key, maker: Key, amount: nat): seq<Touch> {
    [Begin(vault, mint, k), Pay(src, mint, vault, maker, amount)]
  }

  lemma OpeningAccepted(e: Env, signers: set<Key>, w: World, k: Key, vault: Key, mint: Key, src: Key, maker: Key,
      amount: nat, image: seq<byte>)
    requires maker in signers && 0 < amount < U64
    ensures var r := Exec(e, signers, w, OpeningOps(k, vault, mint, Check(mint in e.mints, InvalidAccountData), src,
                maker, amount, image));
            && (r.Ok? <==> Lockable(e, w, k, vault, mint, src, maker, amount))
            && (r.Ok? ==> && Some(r.value.tokens) == CarryOut(w.tokens, FundTouches(k, vault, mint, src, maker, amount))
                          && r.value.log == w.log + [Move(src, mint, vault, maker, amount)])
  {
    hide AllSound, Touches;
    var begin, test, pay, write := NewToken(vault, mint, k), Check(mint in e.mints, InvalidAccountData),
        Transfer(src, mint, vault, Signer(maker), amount), Write(k, image);
    var rest, r := [begin] + ([test] + ([pay] + ([write] + []))), w.records[k := Zeros(|image|)];
    assert OpeningOps(k, vault, mint, test, src, maker, amount, image) == [NewRecord(k, |image|)] + rest;
    CreateThen(e, signers, w, k, |image|, rest);
    Cons(e, signers, r, begin, [test] + ([pay] + ([write] + [])));
    Cons(e, signers, r, test, [pay] + ([write] + []));
    Cons(e, signers, r, pay, [write] + []);
    Cons(e, signers, r, write, []);
    Nil(e, signers, r);
    assert Touches(rest) == [Begin(vault, mint, k)] + [Pay(src, mint, vault, maker, amount)]
        == FundTouches(k, vault, mint, src, maker, amount);
    PaidSplit([Begin(vault, mint, k)], [Pay(src, mint, vault, maker, amount)]);
    OnePaid(Begin(vault, mint, k));
    OnePaid(Pay(src, mint, vault, maker, amount));
    FundingCarried(w.tokens, vault, mint, k, src, maker, amount);
  }

  // ---- open_swap ----

  predicate MayOpenSwap(e: Env, w: World, x: Ix) {
    var d, a := x.data, x.accounts;
    && |d| == 120 && |a| == 10 && a[0] in x.signers
    && U64At(d, 32) > 0 && U64At(d, 40) > 0 && w.now < I64At(d, 80)
    && AliasShown(e, w, x, a[8])
    && At(e, SwapSeed(a[0], KeyAt(d, 0)), a[1]) && At(e, VaultSeed(a[0], KeyAt(d, 0)), a[2])
    && Lockable(e, w, a[1], a[2], a[3], a[5], a[0], U64At(d, 32))
  }

  lemma OpenSwapGates(e: Env, w: World, x: Ix)
    ensures Swaps.OpenSwap(e, w, x).Ok? <==>
            var d, a := x.data, x.accounts;
            && |d| == 120 && |a| == 10 && a[0] in x.signers
            && U64At(d, 32) > 0 && U64At(d, 40) > 0 && w.now < I64At(d, 80)
            && AliasShown(e, w, x, a[8])
            && At(e, SwapSeed(a[0], KeyAt(d, 0)), a[1]) && At(e, VaultSeed(a[0], KeyAt(d, 0)), a[2])
  {
    hide Find, RequireAlias, AliasShown, SwapImage;
    if |x.accounts| == 10 {
      AliasGateMeans(e, w, x, x.accounts[8]);
    }
  }

  /** open_swap is accepted exactly when the payload, the signature, the clock, the alias gate and the two addresses
      are right, record and vault are new, and the maker's account can send the give amount, which is then all that
      moves. */
  lemma OpenSwapAccepted(e: Env, w: World, x: Ix)
    ensures Step(e, w, 0, x).Ok? <==> MayOpenSwap(e, w, x)
    ensures Step(e, w, 0, x).Ok? ==>
            var d, a, v := x.data, x.accounts, Step(e, w, 0, x).value;
            && Some(v.tokens) == CarryOut(w.tokens, FundTouches(a[1], a[2], a[3], a[5], a[0], U64At(d, 32)))
            && v.log == w.log + [Move(a[5], a[3], a[2], a[0], U64At(d, 32))]
  {
    hide Swaps.OpenSwap, AliasShown, At, Lockable, Exec, SwapImage, Find, Create, ReadSwap;
    SwapPlans(e, w, x);
    OpenSwapGates(e, w, x);
    if Swaps.OpenSwap(e, w, x).Ok? {
      var s := OpenSwapShape(e, x, w);
      OpeningAccepted(e, x.signers, w, x.accounts[1], x.accounts[2], s.giveMint, x.accounts[5], s.maker, s.giveAmount,
          SwapImage(s));
    }
  }

  // ---- cancel_swap and expire ----

  /** An open swap record of this maker and nonce, of a mint, with its own vault, and an account to refund to. */
  predicate Refundable(e: Env, w: World, k: Key, vault: Key, maker: Key, mint: Key, dst: Key, nonce: Key) {
    && k in w.records && |w.records[k]| == 220
    && var s := ReadSwap(w.records[k]);
       && s.status == 0 && s.maker == maker && s.giveMint == mint && mint in e.mints
       && Create(e.derive, SwapSeed(maker, nonce), s.bump) == Some(k) && At(e, VaultSeed(maker, nonce), vault)
       && HoldsToken(w, dst, mint, maker)
  }

  /** The vault holds the recorded amount and no more, and the destination has room for it. */
  predicate Releasable(w: World, vault: Key, dst: Key, amount: nat) {
    Balance(w, vault) == amount && Balance(w, dst) + amount < U64
  }

  predicate MayCancelSwap(e: Env, w: World, x: Ix) {
    var d, a := x.data, x.accounts;
    && |d| == 32 && |a| == 9 && a[0] in x.signers
    && Refundable(e, w, a[1], a[2], a[0], a[3], a[4], d) && DelistPaid(e, w, a[6], a[7])
    && Releasable(w, a[2], a[4], ReadSwap(w.records[a[1]]).giveAmount)
  }

  predicate MayExpireSwap(e: Env, w: World, x: Ix) {
    var d, a := x.data, x.accounts;
    && |d| == 32 && |a| == 7
    && Refundable(e, w, a[1], a[2], a[3], a[4], a[5], d) && ReadSwap(w.records[a[1]]).expiry <= w.now
    && Releasable(w, a[2], a[5], ReadSwap(w.records[a[1]]).giveAmount)
  }

  lemma RefundMeans(e: Env, w: World, k: Key, vault: Key, maker: Key, mint: Key, dst: Key, nonce: Key, s: Swap)
    ensures Swaps.RefundAndClose(e, w, k, vault, maker, mint, dst, nonce, s).Ok? <==>
            && HoldsToken(w, dst, mint, maker) && Create(e.derive, SwapSeed(maker, nonce), s.bump) == Some(k)
            && At(e, VaultSeed(maker, nonce), vault) && mint in e.mints
  {
    hide Find, Create;
  }

  lemma StatusReads(b: seq<byte>)
    requires |b| == SWAP_LEN
    ensures ReadSwap(b).status == b[184]
  {
  }

  lemma CancelGates(e: Env, w: World, x: Ix)
    ensures Swaps.CancelSwap(e, w, x).Ok? <==>
            var d, a := x.data, x.accounts;
            && |d| == 32 && |a| == 9 && a[0] in x.signers
            && Refundable(e, w, a[1], a[2], a[0], a[3], a[4], d) && DelistPaid(e, w, a[6], a[7])
  {
    hide Swaps.RefundAndClose, Swaps.DelistGate, DelistPaid, Find, Create, HoldsToken, ReadSwap;
    var a := x.accounts;
    if |a| == 9 && |x.data| == 32 && a[1] in w.records && |w.records[a[1]]| == SWAP_LEN {
      StatusReads(w.records[a[1]]);
      DelistGateMeans(e, w, a[6], a[7]);
      RefundMeans(e, w, a[1], a[2], a[0], a[3], a[4], x.data, ReadSwap(w.records[a[1]]));
    }
  }

  lemma ExpireGates(e: Env, w: World, x: Ix)
    ensures Swaps.Expire(e, w, x).Ok? <==>
            var d, a := x.data, x.accounts;
            && |d| == 32 && |a| == 7
            && Refundable(e, w, a[1], a[2], a[3], a[4], a[5], d) && ReadSwap(w.records[a[1]]).expiry <= w.now
  {
    hide Swaps.RefundAndClose, Find, Create, HoldsToken, ReadSwap;
    var a := x.accounts;
    if |a| == 7 && |x.data| == 32 && a[1] in w.records && |w.records[a[1]]| == SWAP_LEN {
      StatusReads(w.records[a[1]]);
      RefundMeans(e, w, a[1], a[2], a[3], a[4], a[5], x.data, ReadSwap(w.records[a[1]]));
    }
  }

  lemma RefundAccepted(e: Env, w: World, x: Ix, plan: Plan, s: Swap, nonce: Key, k: Key, vault: Key, dst: Key)
    requires ValidEnv(e) && Inv(e, w) && Refunds(e, w, plan, s, nonce, k, vault, dst)
    ensures Run(e, w, x, plan).Ok? <==> Releasable(w, vault, dst, s.giveAmount)
  {
    hide ReadSwap, Inv, Legs, Create, Find, Exec, Balance, Refunds;
    Recovery.SwapRefundAccepted(e, w, x, plan, s, nonce, k, vault, dst);
    Recovery.RefundedLeg(e, w, plan, s, nonce, k, vault, dst);
    assert Legs(e, k, w.records[k])[0] == Leg(vault, s.giveMint, s.giveAmount);
    assert Recovery.LegsExact(e, w, k) <==> Balance(w, vault) == s.giveAmount;
  }

  lemma RefundedRecord(e: Env, w: World, plan: Plan, s: Swap, nonce: Key, k: Key, vault: Key, dst: Key)
    requires Refunds(e, w, plan, s, nonce, k, vault, dst)
    ensures k in w.records && |w.records[k]| == SWAP_LEN && s == ReadSwap(w.records[k])
  {
    hide ReadSwap;
  }

  /** In every reachable state cancel_swap is accepted exactly when its maker signs for an open record at the address of
      maker and nonce, the accounts are the ones derived and the maker's own, the delist fee of the policy goes to its
      wallet, the vault holds just the recorded amount, and the destination has room. */
  lemma CancelSwapAccepted(e: Env, w: World, x: Ix)
    requires ValidEnv(e) && Inv(e, w)
    ensures Step(e, w, 2, x).Ok? <==> MayCancelSwap(e, w, x)
  {
    hide Swaps.CancelSwap, Refundable, DelistPaid, Releasable, Exec, Inv, ValidEnv, Refunds, ReadSwap;
    RefundPlans(e, w, x);
    CancelGates(e, w, x);
    if Swaps.CancelSwap(e, w, x).Ok? {
      var s := CancelSwapShape(e, x, w);
      RefundedRecord(e, w, Swaps.CancelSwap(e, w, x), s, x.data, x.accounts[1], x.accounts[2], x.accounts[4]);
      RefundAccepted(e, w, x, Swaps.CancelSwap(e, w, x), s, x.data, x.accounts[1], x.accounts[2], x.accounts[4]);
    }
  }

  /** The same for expire, which anyone may call from the expiry on. */
  lemma ExpireAccepted(e: Env, w: World, x: Ix)
    requires ValidEnv(e) && Inv(e, w)
    ensures Step(e, w, 3, x).Ok? <==> MayExpireSwap(e, w, x)
  {
    hide Swaps.Expire, Refundable, Releasable, Exec, Inv, ValidEnv, Refunds, ReadSwap;
    RefundPlans(e, w, x);
    ExpireGates(e, w, x);
    if Swaps.Expire(e, w, x).Ok? {
      var s := ExpireShape(e, x, w);
      RefundedRecord(e, w, Swaps.Expire(e, w, x), s, x.data, x.accounts[1], x.accounts[2], x.accounts[5]);
      RefundAccepted(e, w, x, Swaps.Expire(e, w, x), s, x.data, x.accounts[1], x.accounts[2], x.accounts[5]);
    }
  }

  // ---- fill ----

  /** What a fill must show besides room and balance: an open record whose terms the payload meets, before its expiry,
      for this taker, at the addresses of maker and nonce, with the maker's own account and the policy's fee account. */
  predicate FillTerms(e: Env, w: World, x: Ix) {
    var d, a := x.data, x.accounts;
    && |d| == 48 && |a| >= 12 && a[0] in x.signers
    && a[1] in w.records && |w.records[a[1]]| == 220
    && var s := ReadSwap(w.records[a[1]]);
       && s.status == 0 && s.maker == a[3] && s.giveMint == a[4] && s.wantMint == a[5]
       && w.now < s.expiry && (s.taker == ZERO || s.taker == a[0])
       && s.giveAmount == U64At(d, 32) && s.wantAmount <= U64At(d, 40)
       && Create(e.derive, SwapSeed(s.maker, KeyAt(d, 0)), s.bump) == Some(a[1])
       && At(e, VaultSeed(s.maker, KeyAt(d, 0)), a[2])
       && HoldsToken(w, a[8], s.wantMint, s.maker) && s.giveMint in e.mints && s.wantMint in e.mints
       && IsConfig(e, w, a[10])
  }

  predicate FillFeeGoes(e: Env, w: World, x: Ix)
    requires FillTerms(e, w, x)
  {
    var a := x.accounts;
    FeeOf(w.records[a[10]], ReadSwap(w.records[a[1]]).wantAmount) > 0 ==>
        FeeGoes(e, w, w.records[a[10]], a[11], a[5], x.data[0])
  }

  /** The fee and the rest of the price from the taker's account, the goods from the vault, the closing. */
  function FillTouches(e: Env, w: World, x: Ix): seq<Touch>
    requires FillTerms(e, w, x)
  {
    var a, s := x.accounts, ReadSwap(w.records[x.accounts[1]]);
    PriceTouches(w.records[a[10]], a[6], s.wantMint, a[11], a[8], a[0], s.wantAmount)
    + [Pay(a[2], s.giveMint, a[7], a[1], s.giveAmount), Finish(a[2], a[1])]
  }

  lemma FillGates(e: Env, w: World, x: Ix)
    ensures Swaps.Fill(e, w, x).Ok? <==> FillTerms(e, w, x)
  {
    hide Find, Create, ReadSwap, PriceOps, ReadConfig, IsConfig;
    var a := x.accounts;
    if |a| >= 12 {
      ConfigReads(e, w, a[10]);
      if a[1] in w.records && |w.records[a[1]]| == SWAP_LEN {
        StatusReads(w.records[a[1]]);
      }
    }
  }

  lemma ReleaseAsks(e: Env, signers: set<Key>, r: map<Key, seq<byte>>, vault: Key, mint: Key, dst: Key, amount: nat,
      auth: Authority, k: Key)
    requires Signed(e, signers, auth) && k in r
    ensures var ops := Swaps.ReleaseOps(vault, mint, dst, amount, auth) + [Wipe(k)];
            && AllSound(e, signers, r, ops) && (forall op :: op in ops ==> !op.NewRecord?)
            && Touches(ops) == [Pay(vault, mint, dst, auth.key, amount), Finish(vault, auth.key)]
  {
    hide Signed, AllSound, Touches;
    var pay, close, wipe := Transfer(vault, mint, dst, auth, amount), CloseToken(vault, auth), Wipe(k);
    assert Swaps.ReleaseOps(vault, mint, dst, amount, auth) + [wipe] == [pay] + ([close] + ([wipe] + []));
    Cons(e, signers, r, pay, [close] + ([wipe] + []));
    Cons(e, signers, r, close, [wipe] + []);
    Cons(e, signers, r, wipe, []);
    Nil(e, signers, r);
  }

  /** In every reachable state fill is accepted exactly when its terms hold, a positive fee goes where the policy says,
      and the token program carries out the payment, the release and the closing in turn; the token accounts are then
      what it leaves, and the log grows by the transfers. */
  lemma FillAccepted(e: Env, w: World, x: Ix)
    requires Inv(e, w)
    ensures Step(e, w, 1, x).Ok? <==>
            && FillTerms(e, w, x) && FillFeeGoes(e, w, x) && CarryOut(w.tokens, FillTouches(e, w, x)).Some?
    ensures Step(e, w, 1, x).Ok? ==>
            && Some(Step(e, w, 1, x).value.tokens) == CarryOut(w.tokens, FillTouches(e, w, x))
            && Step(e, w, 1, x).value.log == w.log + Paid(FillTouches(e, w, x))
  {
    hide Swaps.Fill, Inv, ReadSwap, PriceOps, Swaps.ReleaseOps, Exec, CarryOut, PriceTouches, FeeGoes, FeeOf, AllSound,
        Touches, Find, ReadConfig, ReadConfigRecord, Royalty.Bps, Paid;
    SwapPlans(e, w, x);
    FillGates(e, w, x);
    if Swaps.Fill(e, w, x).Ok? {
      var s, c, nonce := FillShape(e, x, w);
      var a := x.accounts;
      ConfigReads(e, w, a[10]);
      FeeInNumbers(e, w, a[10], s.wantAmount);
      var auth := Seeded(a[1], SwapSeed(s.maker, nonce), s.bump);
      var pay := PriceOps(e, w, c, a[6], s.wantMint, a[11], a[8], Signer(a[0]), s.wantAmount, nonce[0]);
      var release := Swaps.ReleaseOps(a[2], s.giveMint, a[7], s.giveAmount, auth) + [Wipe(a[1])];
      PriceAsks(e, x.signers, w.records, w, w.records[a[10]], a[6], s.wantMint, a[11], a[8], Signer(a[0]),
          s.wantAmount, nonce[0]);
      ReleaseAsks(e, x.signers, w.records, a[2], s.giveMint, a[7], s.giveAmount, auth, a[1]);
      assert Swaps.Fill(e, w, x).value == pay + release;
      BothSound(e, x.signers, w.records, pay, release);
      TouchesSplit(pay, release);
      ExecByCarry(e, x.signers, w, pay + release);
    }
  }

  // ---- an ordinary fill, in numbers ----

  /** The taker pays from an account of their own, and no two of the accounts that move are the same. */
  predicate OrdinaryFill(w: World, x: Ix) {
    var a := x.accounts;
    && |a| >= 12 && a[6] in w.tokens && w.tokens[a[6]].owner == a[0] && w.tokens[a[6]].delegate != Some(a[0])
    && w.tokens[a[6]].mint == a[5]
    && a[2] != a[6] && a[2] != a[7] && a[2] != a[8] && a[2] != a[11] && a[6] != a[7] && a[6] != a[8] && a[6] != a[11]
    && a[7] != a[8] && a[7] != a[11] && a[8] != a[11]
  }

  /** The account takes the mint and has room for the amount. */
  predicate HasRoom(t: Tokens, k: Key, mint: Key, amount: nat) {
    k in t && t[k].mint == mint && t[k].amount + amount < U64
  }

  lemma PayByOwner(t: Tokens, src: Key, mint: Key, dst: Key, owner: Key, amount: nat)
    requires src in t && t[src].owner == owner && t[src].delegate != Some(owner) && t[src].mint == mint && src != dst
    ensures Touched(t, Pay(src, mint, dst, owner, amount)) ==
            if amount <= t[src].amount && HasRoom(t, dst, mint, amount)
            then Some(t[src := t[src].(amount := t[src].amount - amount)][dst :=
                t[dst].(amount := t[dst].amount + amount)]) else None
  {
  }

  /** Two or three payments out of one account and one out of another, all between different accounts: accepted exactly
      when the payer has the price and every payee has room. */
  lemma PaymentsCarried(t: Tokens, src: Key, mint: Key, feeAccount: Key, payee: Key, owner: Key, price: nat, fee: nat)
    requires src in t && t[src].owner == owner && t[src].delegate != Some(owner) && t[src].mint == mint && fee <= price
    requires src != feeAccount && src != payee && feeAccount != payee
    ensures var touches := (if fee == 0 then [] else [Pay(src, mint, feeAccount, owner, fee)])
                + [Pay(src, mint, payee, owner, price - fee)];
            && (CarryOut(t, touches).Some? <==>
                  && price <= t[src].amount && HasRoom(t, payee, mint, price - fee)
                  && (fee > 0 ==> HasRoom(t, feeAccount, mint, fee)))
            && (CarryOut(t, touches).Some? ==>
                  forall k :: k != src && k != payee && k != feeAccount ==>
                      (k in t <==> k in CarryOut(t, touches).value)
                      && (k in t ==> CarryOut(t, touches).value[k] == t[k]))
  {
    hide CarryOut, Touched;
    var first, second := Pay(src, mint, feeAccount, owner, fee), Pay(src, mint, payee, owner, price - fee);
    CarryAppend(t, if fee == 0 then [] else [first], [second]);
    if fee == 0 {
      NothingAsked(t);
      CarryOne(t, second);
      PayByOwner(t, src, mint, payee, owner, price - fee);
    } else {
      CarryOne(t, first);
      PayByOwner(t, src, mint, feeAccount, owner, fee);
      if Touched(t, first).Some? {
        CarryOne(Touched(t, first).value, second);
        PayByOwner(Touched(t, first).value, src, mint, payee, owner, price - fee);
      }
    }
  }

  lemma ReleaseCarried(t: Tokens, vault: Key, mint: Key, dst: Key, owner: Key, amount: nat)
    requires vault in t && t[vault].owner == owner && t[vault].delegate.None? && t[vault].mint == mint && vault != dst
    ensures CarryOut(t, [Pay(vault, mint, dst, owner, amount), Finish(vault, owner)]).Some? <==>
            (t[vault].amount == amount && HasRoom(t, dst, mint, amount))
  {
    hide CarryOut;
    var pay, finish := Pay(vault, mint, dst, owner, amount), Finish(vault, owner);
    assert [pay, finish] == [pay] + [finish];
    CarryAppend(t, [pay], [finish]);
    CarryOne(t, pay);
    PayByOwner(t, vault, mint, dst, owner, amount);
    if Touched(t, pay).Some? {
      CarryOne(Touched(t, pay).value, finish);
    }
  }

  /** The numbers of a fill: the taker has the price, maker, fee account and destination have room, and the vault holds
      just the recorded amount. */
  predicate FillAffordable(e: Env, w: World, x: Ix)
    requires FillTerms(e, w, x)
  {
    var a, s := x.accounts, ReadSwap(w.records[x.accounts[1]]);
    var fee := FeeOf(w.records[a[10]], s.wantAmount);
    && fee <= s.wantAmount <= Balance(w, a[6]) && HasRoom(w.tokens, a[8], a[5], s.wantAmount - fee)
    && (fee > 0 ==> HasRoom(w.tokens, a[11], a[5], fee))
    && Balance(w, a[2]) == s.giveAmount && HasRoom(w.tokens, a[7], a[4], s.giveAmount)
  }

  lemma SameRoom(t: Tokens, u: Tokens, k: Key, mint: Key, amount: nat)
    requires (k in t <==> k in u) && (k in t ==> t[k] == u[k])
    ensures HasRoom(t, k, mint, amount) <==> HasRoom(u, k, mint, amount)
  {
  }

  /** In every reachable state an ordinary fill is accepted exactly when its terms hold, a positive fee goes where the
      policy says, and the numbers add up. */
  lemma OrdinaryFillAccepted(e: Env, w: World, x: Ix)
    requires ValidEnv(e) && Inv(e, w) && OrdinaryFill(w, x)
    ensures Step(e, w, 1, x).Ok? <==> FillTerms(e, w, x) && FillFeeGoes(e, w, x) && FillAffordable(e, w, x)
  {
    hide Step, Inv, ReadSwap, CarryOut, FeeGoes, FeeOf, Find, ReadConfigRecord, Royalty.Bps, Create, ValidEnv,
        HasRoom, Legs, HoldsToken, FillFeeGoes;
    FillAccepted(e, w, x);
    if FillTerms(e, w, x) {
      var a, s := x.accounts, ReadSwap(w.records[x.accounts[1]]);
      FeeInNumbers(e, w, a[10], s.wantAmount);
      var fee := FeeOf(w.records[a[10]], s.wantAmount);
      var paid, released := PriceTouches(w.records[a[10]], a[6], s.wantMint, a[11], a[8], a[0], s.wantAmount),
          [Pay(a[2], s.giveMint, a[7], a[1], s.giveAmount), Finish(a[2], a[1])];
      Lifecycle.SwapParty(w.records[a[1]]);
      Lifecycle.RederivedIsLive(e, w, a[1], SwapSeed(s.maker, KeyAt(x.data, 0)), s.bump);
      Recovery.SwapLeg(e, w, a[1], KeyAt(x.data, 0));
      Recovery.LegHolds(e, w, a[1], 0);
      PaymentsCarried(w.tokens, a[6], s.wantMint, a[11], a[8], a[0], s.wantAmount, fee);
      CarryAppend(w.tokens, paid, released);
      if CarryOut(w.tokens, paid).Some? {
        var t := CarryOut(w.tokens, paid).value;
        ReleaseCarried(t, a[2], s.giveMint, a[7], a[1], s.giveAmount);
        assert HasRoom(t, a[7], s.giveMint, s.giveAmount) <==> HasRoom(w.tokens, a[7], s.giveMint, s.giveAmount) by {
          SameRoom(t, w.tokens, a[7], s.giveMint, s.giveAmount);
        }
      }
    }
  }
}
