/** When baskets are settled, rewrapped and returned (tags 13-17), in terms of payload bytes, record bytes and token
    accounts alone. */
module BasketAdmission {
  import opened Prelude
  import opened Bytes
  import opened Seeds
  import opened Layout
  import opened Ledger
  import opened FeeConfig
  import opened Payments
  import opened Machine
  import opened Shapes
  import opened BasketEffects
  import opened Carry
  import opened Admission
  import Baskets
  import Royalty
  import Swaps

  // ---- the release loop ----

  /** The three accounts of every give leg, from `base` on, are there. */
  predicate GivesListed(x: Ix, b: seq<byte>, base: nat) {
    && |b| == 541 && ReadBasket(b).giveCount <= 5 && |x.accounts| >= base + ReadBasket(b).giveCount * 3
  }

  /** Give leg i can be released: the recorded mint, the vault of (maker, nonce, i), and, where a payee is due, a
      destination of theirs that no earlier leg closed. */
  predicate LegReleasable(e: Env, w: World, x: Ix, b: seq<byte>, nonce: Key, base: nat, payee: Option<Key>, i: nat)
    requires GivesListed(x, b, base) && i < ReadBasket(b).giveCount
  {
    var a, at, mint := x.accounts, base + i * 3, GiveEntry(b, i).mint;
    && mint == a[at] && mint in e.mints && At(e, BVaultSeed(ReadBasket(b).maker, nonce, i), a[at + 1])
    && (payee.Some? ==> HoldsToken(w, a[at + 2], mint, payee.value)
                        && forall j :: 0 <= j < i ==> a[base + j * 3 + 1] != a[at + 2])
  }

  predicate LegsReleasable(e: Env, w: World, x: Ix, b: seq<byte>, nonce: Key, base: nat, payee: Option<Key>, i: nat)
    requires GivesListed(x, b, base)
  {
    forall k :: i <= k < ReadBasket(b).giveCount ==> LegReleasable(e, w, x, b, nonce, base, payee, k)
  }

  /** Each vault pays its recorded amount and closes, in order, from leg i on. */
  function ReleaseTouches(x: Ix, b: seq<byte>, base: nat, basket: Key, i: nat): seq<Touch>
    requires GivesListed(x, b, base) && i <= ReadBasket(b).giveCount
    decreases ReadBasket(b).giveCount - i
  {
    if i == ReadBasket(b).giveCount then [] else
    var a, at, entry := x.accounts, base + i * 3, GiveEntry(b, i);
    [Pay(a[at + 1], entry.mint, a[at + 2], basket, entry.amount), Finish(a[at + 1], basket)]
    + ReleaseTouches(x, b, base, basket, i + 1)
  }

  lemma FourTestsThen(e: Env, signers: set<Key>, r: map<Key, seq<byte>>, one: Op, two: Op, three: Op, four: Op, pay: Op,
      close: Op)
    requires one.Check? && two.Check? && three.Check? && four.Check? && pay.Transfer? && close.CloseToken?
    requires Signed(e, signers, pay.auth) && Signed(e, signers, close.auth)
    ensures var ops := [one, two, three, four, pay, close];
            && (AllSound(e, signers, r, ops) <==> one.ok && two.ok && three.ok && four.ok)
            && Touches(ops) == TouchOf(pay) + TouchOf(close) && forall op :: op in ops ==> !op.NewRecord?
  {
    hide Signed, AllSound, Touches;
    var tail := [pay] + ([close] + []);
    assert [one, two, three, four, pay, close] == [one] + ([two] + ([three] + ([four] + tail)));
    Cons(e, signers, r, one, [two] + ([three] + ([four] + tail)));
    Cons(e, signers, r, two, [three] + ([four] + tail));
    Cons(e, signers, r, three, [four] + tail);
    Cons(e, signers, r, four, tail);
    Cons(e, signers, r, pay, [close] + []);
    Cons(e, signers, r, close, []);
    Nil(e, signers, r);
  }

  lemma ReleaseLegAsks(e: Env, signers: set<Key>, r: map<Key, seq<byte>>, w: World, x: Ix, b: seq<byte>, nonce: Key,
      base: nat, auth: Authority, payee: Option<Key>, i: nat)
    requires GivesListed(x, b, base) && i < ReadBasket(b).giveCount && Signed(e, signers, auth)
    ensures var ops := Baskets.UnlockLeg(e, w, x, b, nonce, base, auth, payee, i);
            && (forall op :: op in ops ==> !op.NewRecord?)
            && (AllSound(e, signers, r, ops) <==> LegReleasable(e, w, x, b, nonce, base, payee, i))
            && var a, at, entry := x.accounts, base + i * 3, GiveEntry(b, i);
               Touches(ops) == [Pay(a[at + 1], a[at], a[at + 2], auth.key, entry.amount), Finish(a[at + 1], auth.key)]
  {
    hide Signed, AllSound, Touches, Find, GiveEntry, ReadBasket, HoldsToken, IsTokenAccount;
    var ops := Baskets.UnlockLeg(e, w, x, b, nonce, base, auth, payee, i);
    assert ops == [ops[0], ops[1], ops[2], ops[3], ops[4], ops[5]];
    FourTestsThen(e, signers, r, ops[0], ops[1], ops[2], ops[3], ops[4], ops[5]);
    if payee.Some? {
      TokenAccountMeans(w, x.accounts[base + i * 3 + 2], x.accounts[base + i * 3], payee.value);
    }
  }

  lemma MintsAgree(e: Env, w: World, x: Ix, b: seq<byte>, nonce: Key, base: nat, payee: Option<Key>, i: nat)
    requires GivesListed(x, b, base) && i < ReadBasket(b).giveCount
    requires LegReleasable(e, w, x, b, nonce, base, payee, i)
    ensures GiveEntry(b, i).mint == x.accounts[base + i * 3]
  {
    hide GiveEntry, ReadBasket;
  }

  /** The release loop is sound exactly when every leg is releasable, and then it asks for one payment and one closing a
      leg. */
  lemma {:induction false} ReleasesAsk(e: Env, signers: set<Key>, r: map<Key, seq<byte>>, w: World, x: Ix, b: seq<byte>,
      nonce: Key, base: nat, auth: Authority, payee: Option<Key>, i: nat)
    requires GivesListed(x, b, base) && i <= ReadBasket(b).giveCount && Signed(e, signers, auth)
    ensures var ops := Baskets.UnlockOps(e, w, x, b, nonce, base, auth, payee, i);
            && (forall op :: op in ops ==> !op.NewRecord?)
            && (AllSound(e, signers, r, ops) <==> LegsReleasable(e, w, x, b, nonce, base, payee, i))
            && (AllSound(e, signers, r, ops) ==> Touches(ops) == ReleaseTouches(x, b, base, auth.key, i))
    decreases ReadBasket(b).giveCount - i
  {
    hide Signed, AllSound, Touches, Baskets.UnlockLeg, LegReleasable, ReadBasket, GiveEntry;
    if i == ReadBasket(b).giveCount {
      Nil(e, signers, r);
    } else {
      var leg, rest := Baskets.UnlockLeg(e, w, x, b, nonce, base, auth, payee, i),
          Baskets.UnlockOps(e, w, x, b, nonce, base, auth, payee, i + 1);
      ReleaseLegAsks(e, signers, r, w, x, b, nonce, base, auth, payee, i);
      ReleasesAsk(e, signers, r, w, x, b, nonce, base, auth, payee, i + 1);
      BothSound(e, signers, r, leg, rest);
      TouchesSplit(leg, rest);
      assert LegsReleasable(e, w, x, b, nonce, base, payee, i) <==>
          (LegReleasable(e, w, x, b, nonce, base, payee, i)
           && LegsReleasable(e, w, x, b, nonce, base, payee, i + 1));
      if LegReleasable(e, w, x, b, nonce, base, payee, i) {
        MintsAgree(e, w, x, b, nonce, base, payee, i);
      }
    }
  }

  // ---- the payment loop ----

  /** The accounts of all legs of a fill are there. */
  predicate LegsListed(x: Ix, b: seq<byte>) {
    && |b| == 541 && ReadBasket(b).giveCount <= 5 && ReadBasket(b).wantCount <= 5
    && |x.accounts| == 5 + ReadBasket(b).giveCount * 3 + ReadBasket(b).wantCount * 4
  }

  function WantAt(b: seq<byte>, j: nat): nat
    requires |b| == 541
  {
    5 + ReadBasket(b).giveCount * 3 + j * 4
  }

  /** Want leg j can be paid: the recorded mint, an account of the maker, and, when there is a fee, a destination the
      policy allows. */
  predicate LegPayable(e: Env, w: World, x: Ix, policy: seq<byte>, b: seq<byte>, j: nat)
    requires LegsListed(x, b) && j < ReadBasket(b).wantCount && |policy| == 108 && |x.data| == 32
  {
    var a, at, entry := x.accounts, WantAt(b, j), WantEntry(b, j);
    && entry.mint == a[at] && entry.mint in e.mints && HoldsToken(w, a[at + 2], entry.mint, ReadBasket(b).maker)
    && (FeeOf(policy, entry.amount) > 0 ==> FeeGoes(e, w, policy, a[at + 3], entry.mint, x.data[0]))
  }

  predicate LegsPayable(e: Env, w: World, x: Ix, policy: seq<byte>, b: seq<byte>, j: nat)
    requires LegsListed(x, b) && |policy| == 108 && |x.data| == 32
  {
    forall k :: j <= k < ReadBasket(b).wantCount ==> LegPayable(e, w, x, policy, b, k)
  }

  /** The fee and the rest of each want leg, in order, from leg j on. */
  function WantTouches(x: Ix, policy: seq<byte>, b: seq<byte>, j: nat): seq<Touch>
    requires LegsListed(x, b) && j <= ReadBasket(b).wantCount && |policy| == 108
    decreases ReadBasket(b).wantCount - j
  {
    if j == ReadBasket(b).wantCount then [] else
    var a, at, entry := x.accounts, WantAt(b, j), WantEntry(b, j);
    PriceTouches(policy, a[at + 1], entry.mint, a[at + 3], a[at + 2], a[0], entry.amount)
    + WantTouches(x, policy, b, j + 1)
  }

  lemma ThreeTestsThen(e: Env, signers: set<Key>, r: map<Key, seq<byte>>, one: Op, two: Op, three: Op, rest: seq<Op>)
    requires one.Check? && two.Check? && three.Check?
    ensures AllSound(e, signers, r, [one, two, three] + rest) <==>
            (one.ok && two.ok && three.ok && AllSound(e, signers, r, rest))
    ensures Touches([one, two, three] + rest) == Touches(rest)
    ensures (forall op :: op in rest ==> !op.NewRecord?) ==>
        forall op :: op in [one, two, three] + rest ==> !op.NewRecord?
  {
    hide AllSound, Touches;
    assert [one, two, three] + rest == [one] + ([two] + ([three] + rest));
    Cons(e, signers, r, one, [two] + ([three] + rest));
    Cons(e, signers, r, two, [three] + rest);
    Cons(e, signers, r, three, rest);
  }

  lemma WantLegAsks(e: Env, signers: set<Key>, r: map<Key, seq<byte>>, w: World, x: Ix, k: Key, b: seq<byte>, j: nat)
    requires Inv(e, w) && IsConfig(e, w, k) && LegsListed(x, b) && j < ReadBasket(b).wantCount && |x.data| == 32
    requires x.accounts[0] in signers
    ensures var ops := Baskets.PayLeg(e, w, x, ReadConfigRecord(w.records[k]), b, x.data, j);
            && (forall op :: op in ops ==> !op.NewRecord?)
            && (AllSound(e, signers, r, ops) <==> LegPayable(e, w, x, w.records[k], b, j))
            && var a, at, entry := x.accounts, WantAt(b, j), WantEntry(b, j);
               Touches(ops)
               == PriceTouches(w.records[k], a[at + 1], a[at], a[at + 3], a[at + 2], a[0], entry.amount)
  {
    hide AllSound, Touches, WantEntry, ReadBasket, HoldsToken, IsTokenAccount, PriceOps, PriceTouches, FeeOf, FeeGoes,
        ReadConfigRecord, Royalty.Bps, Inv, At;
    var a, at, entry, c := x.accounts, WantAt(b, j), WantEntry(b, j), ReadConfigRecord(w.records[k]);
    FeeInNumbers(e, w, k, entry.amount);
    PriceAsks(e, signers, r, w, w.records[k], a[at + 1], a[at], a[at + 3], a[at + 2], Signer(a[0]), entry.amount,
        x.data[0]);
    TokenAccountMeans(w, a[at + 2], a[at], ReadBasket(b).maker);
    var price := PriceOps(e, w, c, a[at + 1], a[at], a[at + 3], a[at + 2], Signer(a[0]), entry.amount, x.data[0]);
    var ops := Baskets.PayLeg(e, w, x, c, b, x.data, j);
    assert ops == [ops[0], ops[1], ops[2]] + price;
    ThreeTestsThen(e, signers, r, ops[0], ops[1], ops[2], price);
  }

  lemma WantMintsAgree(e: Env, w: World, x: Ix, policy: seq<byte>, b: seq<byte>, j: nat)
    requires LegsListed(x, b) && j < ReadBasket(b).wantCount && |policy| == 108 && |x.data| == 32
    requires LegPayable(e, w, x, policy, b, j)
    ensures WantEntry(b, j).mint == x.accounts[WantAt(b, j)]
  {
    hide WantEntry, ReadBasket, FeeOf, FeeGoes;
  }

  /** The payment loop is sound exactly when every want leg is payable, and then it asks for a fee and a price a leg. */
  lemma {:induction false} WantsAsk(e: Env, signers: set<Key>, r: map<Key, seq<byte>>, w: World, x: Ix, k: Key,
      b: seq<byte>, j: nat)
    requires Inv(e, w) && IsConfig(e, w, k) && LegsListed(x, b) && j <= ReadBasket(b).wantCount && |x.data| == 32
    requires x.accounts[0] in signers
    ensures var ops := Baskets.PayOps(e, w, x, ReadConfigRecord(w.records[k]), b, x.data, j);
            && (forall op :: op in ops ==> !op.NewRecord?)
            && (AllSound(e, signers, r, ops) <==> LegsPayable(e, w, x, w.records[k], b, j))
            && (AllSound(e, signers, r, ops) ==> Touches(ops) == WantTouches(x, w.records[k], b, j))
    decreases ReadBasket(b).wantCount - j
  {
    hide Inv, At, AllSound, Touches, Baskets.PayLeg, LegPayable, ReadBasket, WantEntry, ReadConfigRecord, PriceTouches;
    var c := ReadConfigRecord(w.records[k]);
    if j == ReadBasket(b).wantCount {
      Nil(e, signers, r);
    } else {
      var leg, rest := Baskets.PayLeg(e, w, x, c, b, x.data, j), Baskets.PayOps(e, w, x, c, b, x.data, j + 1);
      WantLegAsks(e, signers, r, w, x, k, b, j);
      WantsAsk(e, signers, r, w, x, k, b, j + 1);
      BothSound(e, signers, r, leg, rest);
      TouchesSplit(leg, rest);
      assert LegsPayable(e, w, x, w.records[k], b, j) <==>
          (LegPayable(e, w, x, w.records[k], b, j) && LegsPayable(e, w, x, w.records[k], b, j + 1));
      if LegPayable(e, w, x, w.records[k], b, j) {
        WantMintsAgree(e, w, x, w.records[k], b, j);
      }
    }
  }

  // ---- the settling instructions ----

  /** An open basket of this maker, at the address of maker and nonce. */
  predicate OpenBasketAt(e: Env, w: World, k: Key, maker: Key, nonce: Key) {
    && k in w.records && |w.records[k]| == 541
    && var t := ReadBasket(w.records[k]);
       t.status == 0 && t.maker == maker && Create(e.derive, BasketSeed(maker, nonce), t.bump) == Some(k)
  }

  lemma BasketStatusReads(b: seq<byte>)
    requires |b| == BASKET_LEN
    ensures ReadBasket(b).status == b[B_STATUS]
  {
  }

  /** In a reachable state an open basket that re-derives is within the limits, and its own address signs for it. */
  lemma OpenBasketFits(e: Env, signers: set<Key>, w: World, k: Key, maker: Key, nonce: Key)
    requires ValidEnv(e) && Inv(e, w) && OpenBasketAt(e, w, k, maker, nonce)
    ensures var t := ReadBasket(w.records[k]);
            && 1 <= t.giveCount <= 5 && t.wantCount <= 5
            && Signed(e, signers, Seeded(k, BasketSeed(maker, nonce), t.bump))
            && Settles(e, w, k, nonce, t, Seeded(k, BasketSeed(maker, nonce), t.bump))
  {
    hide ReadBasket, Inv, Create, VaultsHold;
    var t := ReadBasket(w.records[k]);
    SettledBasketFits(e, w, k, nonce, t, Seeded(k, BasketSeed(maker, nonce), t.bump));
  }

  predicate BasketFillTerms(e: Env, w: World, x: Ix) {
    var d, a := x.data, x.accounts;
    && |d| == 32 && |a| >= 5 && a[0] in x.signers && OpenBasketAt(e, w, a[1], a[2], d)
    && var t := ReadBasket(w.records[a[1]]);
       && t.authMode == 0 && t.wantCount > 0 && w.now < t.expiry && (t.taker == ZERO || t.taker == a[0])
       && |a| == 5 + t.giveCount * 3 + t.wantCount * 4 && IsConfig(e, w, a[4])
  }

  predicate BearerTerms(e: Env, w: World, x: Ix) {
    var d, a := x.data, x.accounts;
    && |d| == 32 && |a| >= 5 && a[0] in x.signers && a[1] in x.signers && OpenBasketAt(e, w, a[2], a[3], d)
    && var t := ReadBasket(w.records[a[2]]);
       t.authMode == 1 && t.claimAuth == e.hash(a[1]) && |a| == 5 + t.giveCount * 3
  }

  predicate BasketCancelTerms(e: Env, w: World, x: Ix) {
    var d, a := x.data, x.accounts;
    && |d| == 32 && |a| >= 6 && a[0] in x.signers && OpenBasketAt(e, w, a[1], a[0], d)
    && var t := ReadBasket(w.records[a[1]]);
       t.authMode != 1 && |a| == 6 + t.giveCount * 3 && DelistPaid(e, w, a[3], a[4])
  }

  predicate BasketExpiryTerms(e: Env, w: World, x: Ix) {
    var d, a := x.data, x.accounts;
    && |d| == 32 && |a| >= 4 && OpenBasketAt(e, w, a[1], a[2], d)
    && var t := ReadBasket(w.records[a[1]]);
       t.authMode != 1 && t.expiry <= w.now && |a| == 4 + t.giveCount * 3
  }

  lemma FillBasketGates(e: Env, w: World, x: Ix)
    ensures Baskets.FillBasket(e, w, x).Ok? <==> BasketFillTerms(e, w, x)
  {
    hide ReadBasket, Create, ReadConfig, IsConfig, Baskets.PayOps, Baskets.UnlockOps;
    var a := x.accounts;
    if |a| >= 5 {
      ConfigReads(e, w, a[4]);
      if a[1] in w.records && |w.records[a[1]]| == BASKET_LEN {
        BasketStatusReads(w.records[a[1]]);
      }
    }
  }

  lemma BearerGates(e: Env, w: World, x: Ix)
    ensures Baskets.ClaimBearer(e, w, x).Ok? <==> BearerTerms(e, w, x)
  {
    hide ReadBasket, Create, Baskets.UnlockOps;
    var a := x.accounts;
    if |a| >= 5 && a[2] in w.records && |w.records[a[2]]| == BASKET_LEN {
      BasketStatusReads(w.records[a[2]]);
    }
  }

  lemma CancelBasketGates(e: Env, w: World, x: Ix)
    ensures Baskets.CancelBasket(e, w, x).Ok? <==> BasketCancelTerms(e, w, x)
  {
    hide ReadBasket, Create, Swaps.DelistGate, DelistPaid, Baskets.UnlockOps;
    var a := x.accounts;
    if |a| >= 6 {
      DelistGateMeans(e, w, a[3], a[4]);
      if a[1] in w.records && |w.records[a[1]]| == BASKET_LEN {
        BasketStatusReads(w.records[a[1]]);
      }
    }
  }

  lemma ExpireBasketGates(e: Env, w: World, x: Ix)
    ensures Baskets.ExpireBasket(e, w, x).Ok? <==> BasketExpiryTerms(e, w, x)
  {
    hide ReadBasket, Create, Baskets.UnlockOps;
    var a := x.accounts;
    if |a| >= 4 && a[1] in w.records && |w.records[a[1]]| == BASKET_LEN {
      BasketStatusReads(w.records[a[1]]);
    }
  }

  lemma WipeAsks(e: Env, signers: set<Key>, r: map<Key, seq<byte>>, ops: seq<Op>, k: Key)
    requires k in r
    ensures AllSound(e, signers, r, ops + [Wipe(k)]) <==> AllSound(e, signers, r, ops)
    ensures Touches(ops + [Wipe(k)]) == Touches(ops)
    ensures (forall op :: op in ops ==> !op.NewRecord?) ==> forall op :: op in ops + [Wipe(k)] ==> !op.NewRecord?
  {
    hide AllSound, Touches;
    BothSound(e, signers, r, ops, [Wipe(k)] + []);
    TouchesSplit(ops, [Wipe(k)]);
    Cons(e, signers, r, Wipe(k), []);
    Nil(e, signers, r);
    OneTouch(Wipe(k));
    assert [Wipe(k)] + [] == [Wipe(k)];
  }

  /** A plan that releases every leg and wipes the record is accepted exactly when every leg is releasable and the token
      program carries out the releases. */
  lemma UnlockingAccepted(e: Env, w: World, x: Ix, k: Key, maker: Key, base: nat, payee: Option<Key>)
    requires ValidEnv(e) && Inv(e, w) && |x.data| == 32 && OpenBasketAt(e, w, k, maker, x.data)
    requires |x.accounts| == base + ReadBasket(w.records[k]).giveCount * 3
    ensures GivesListed(x, w.records[k], base)
    ensures var b, auth := w.records[k], Seeded(k, BasketSeed(maker, x.data), ReadBasket(w.records[k]).bump);
            var v := Run(e, w, x, Ok(Baskets.UnlockOps(e, w, x, b, x.data, base, auth, payee, 0) + [Wipe(k)]));
            && (v.Ok? <==> && LegsReleasable(e, w, x, b, x.data, base, payee, 0)
                           && CarryOut(w.tokens, ReleaseTouches(x, b, base, k, 0)).Some?)
            && (v.Ok? ==> Some(v.value.tokens) == CarryOut(w.tokens, ReleaseTouches(x, b, base, k, 0))
                          && v.value.log == w.log + Paid(ReleaseTouches(x, b, base, k, 0)))
  {
    hide ReadBasket, Inv, Create, AllSound, Touches, CarryOut, Exec, Paid, LegsReleasable, ReleaseTouches, ValidEnv,
        Settles, Signed, Baskets.UnlockOps;
    OpenBasketFits(e, x.signers, w, k, maker, x.data);
    var b, auth := w.records[k], Seeded(k, BasketSeed(maker, x.data), ReadBasket(w.records[k]).bump);
    var release := Baskets.UnlockOps(e, w, x, b, x.data, base, auth, payee, 0);
    ReleasesAsk(e, x.signers, w.records, w, x, b, x.data, base, auth, payee, 0);
    WipeAsks(e, x.signers, w.records, release, k);
    ExecByCarry(e, x.signers, w, release + [Wipe(k)]);
  }

  lemma SettledIsOpen(e: Env, w: World, basket: Key, nonce: Key, k: Basket, auth: Authority)
    requires Settles(e, w, basket, nonce, k, auth)
    ensures OpenBasketAt(e, w, basket, k.maker, nonce) && k == ReadBasket(w.records[basket])
    ensures auth == Seeded(basket, BasketSeed(k.maker, nonce), k.bump)
  {
    hide ReadBasket;
  }

  /** In every reachable state claim_bearer is accepted exactly when its terms hold, every leg is releasable, and the
      token program carries out the releases in turn; the token accounts are then what it leaves, and the log grows by
      the transfers. */
  lemma ClaimAccepted(e: Env, w: World, x: Ix)
    requires ValidEnv(e) && Inv(e, w)
    ensures BearerTerms(e, w, x) ==> GivesListed(x, w.records[x.accounts[2]], 5)
    ensures Step(e, w, 14, x).Ok? <==>
            && BearerTerms(e, w, x)
            && var k := x.accounts[2];
               && LegsReleasable(e, w, x, w.records[k], x.data, 5, None, 0)
               && CarryOut(w.tokens, ReleaseTouches(x, w.records[k], 5, k, 0)).Some?
    ensures BearerTerms(e, w, x) && Step(e, w, 14, x).Ok? ==>
            var v, asked := Step(e, w, 14, x).value, ReleaseTouches(x, w.records[x.accounts[2]], 5, x.accounts[2], 0);
            Some(v.tokens) == CarryOut(w.tokens, asked) && v.log == w.log + Paid(asked)
  {
    hide Baskets.ClaimBearer, OpenBasketAt, ReadBasket, Inv, LegsReleasable, ReleaseTouches, CarryOut, Exec, Paid,
        ValidEnv, Baskets.UnlockOps, GivesListed;
    BasketPlans(e, w, x);
    BearerGates(e, w, x);
    if BearerTerms(e, w, x) {
      var k, auth := ClaimBearerShape(e, x, w);
      SettledIsOpen(e, w, x.accounts[2], x.data, k, auth);
      UnlockingAccepted(e, w, x, x.accounts[2], x.accounts[3], 5, None);
    }
  }

  /** The same for cancel_basket, where each destination is an account of the maker. */
  lemma CancelBasketAccepted(e: Env, w: World, x: Ix)
    requires ValidEnv(e) && Inv(e, w)
    ensures BasketCancelTerms(e, w, x) ==> GivesListed(x, w.records[x.accounts[1]], 6)
    ensures Step(e, w, 16, x).Ok? <==>
            && BasketCancelTerms(e, w, x)
            && var k := x.accounts[1];
               && LegsReleasable(e, w, x, w.records[k], x.data, 6, Some(x.accounts[0]), 0)
               && CarryOut(w.tokens, ReleaseTouches(x, w.records[k], 6, k, 0)).Some?
    ensures BasketCancelTerms(e, w, x) && Step(e, w, 16, x).Ok? ==>
            var v, asked := Step(e, w, 16, x).value, ReleaseTouches(x, w.records[x.accounts[1]], 6, x.accounts[1], 0);
            Some(v.tokens) == CarryOut(w.tokens, asked) && v.log == w.log + Paid(asked)
  {
    hide Baskets.CancelBasket, OpenBasketAt, ReadBasket, Inv, LegsReleasable, ReleaseTouches, CarryOut, Exec, Paid,
        ValidEnv, Baskets.UnlockOps, GivesListed, DelistPaid;
    BasketPlans(e, w, x);
    CancelBasketGates(e, w, x);
    if BasketCancelTerms(e, w, x) {
      var k, auth := CancelBasketShape(e, x, w);
      SettledIsOpen(e, w, x.accounts[1], x.data, k, auth);
      UnlockingAccepted(e, w, x, x.accounts[1], x.accounts[0], 6, Some(x.accounts[0]));
    }
  }

  /** The same for expire_basket, which anyone may call from the expiry on. */
  lemma ExpireBasketAccepted(e: Env, w: World, x: Ix)
    requires ValidEnv(e) && Inv(e, w)
    ensures BasketExpiryTerms(e, w, x) ==> GivesListed(x, w.records[x.accounts[1]], 4)
    ensures Step(e, w, 17, x).Ok? <==>
            && BasketExpiryTerms(e, w, x)
            && var k := x.accounts[1];
               && LegsReleasable(e, w, x, w.records[k], x.data, 4, Some(x.accounts[2]), 0)
               && CarryOut(w.tokens, ReleaseTouches(x, w.records[k], 4, k, 0)).Some?
    ensures BasketExpiryTerms(e, w, x) && Step(e, w, 17, x).Ok? ==>
            var v, asked := Step(e, w, 17, x).value, ReleaseTouches(x, w.records[x.accounts[1]], 4, x.accounts[1], 0);
            Some(v.tokens) == CarryOut(w.tokens, asked) && v.log == w.log + Paid(asked)
  {
    hide Baskets.ExpireBasket, OpenBasketAt, ReadBasket, Inv, LegsReleasable, ReleaseTouches, CarryOut, Exec, Paid,
        ValidEnv, Baskets.UnlockOps, GivesListed;
    BasketPlans(e, w, x);
    ExpireBasketGates(e, w, x);
    if BasketExpiryTerms(e, w, x) {
      var k, auth := ExpireBasketShape(e, x, w);
      SettledIsOpen(e, w, x.accounts[1], x.data, k, auth);
      UnlockingAccepted(e, w, x, x.accounts[1], x.accounts[2], 4, Some(x.accounts[2]));
    }
  }

  lemma BasketSize(e: Env, w: World, k: Key, maker: Key, nonce: Key)
    requires OpenBasketAt(e, w, k, maker, nonce)
    ensures k in w.records && |w.records[k]| == 541
  {
  }

  lemma FilledBasketLegs(e: Env, w: World, x: Ix)
    requires ValidEnv(e) && Inv(e, w) && BasketFillTerms(e, w, x)
    ensures LegsListed(x, w.records[x.accounts[1]]) && GivesListed(x, w.records[x.accounts[1]], 5)
  {
    hide OpenBasketAt, ReadBasket, Inv, Settles, Signed;
    OpenBasketFits(e, x.signers, w, x.accounts[1], x.accounts[2], x.data);
    assert |w.records[x.accounts[1]]| == 541 by { BasketSize(e, w, x.accounts[1], x.accounts[2], x.data); }
  }

  /** The payments of the want legs, then the releases of the give legs. */
  function BasketFillTouches(w: World, x: Ix): seq<Touch>
    requires |x.accounts| >= 5 && x.accounts[1] in w.records && x.accounts[4] in w.records
    requires LegsListed(x, w.records[x.accounts[1]]) && GivesListed(x, w.records[x.accounts[1]], 5)
        && |w.records[x.accounts[4]]| == 108
  {
    var k, policy := x.accounts[1], w.records[x.accounts[4]];
    WantTouches(x, policy, w.records[k], 0) + ReleaseTouches(x, w.records[k], 5, k, 0)
  }

  lemma FillBasketExec(e: Env, w: World, x: Ix, auth: Authority)
    requires ValidEnv(e) && Inv(e, w) && BasketFillTerms(e, w, x)
    requires auth == Seeded(x.accounts[1], BasketSeed(x.accounts[2], x.data), ReadBasket(w.records[x.accounts[1]]).bump)
    ensures LegsListed(x, w.records[x.accounts[1]]) && GivesListed(x, w.records[x.accounts[1]], 5)
    ensures var k, c := x.accounts[1], w.records[x.accounts[4]];
            var b := w.records[k];
            var v := Exec(e, x.signers, w, Baskets.PayOps(e, w, x, ReadConfigRecord(c), b, x.data, 0)
                + Baskets.UnlockOps(e, w, x, b, x.data, 5, auth, None, 0) + [Wipe(k)]);
            && (v.Ok? <==>
                 && LegsPayable(e, w, x, c, b, 0) && LegsReleasable(e, w, x, b, x.data, 5, None, 0)
                 && CarryOut(w.tokens, BasketFillTouches(w, x)).Some?)
            && (v.Ok? ==> && Some(v.value.tokens) == CarryOut(w.tokens, BasketFillTouches(w, x))
                          && v.value.log == w.log + Paid(BasketFillTouches(w, x)))
  {
    hide OpenBasketAt, ReadBasket, Inv, LegsReleasable, LegsPayable, ReleaseTouches, WantTouches, CarryOut, Exec, Paid,
        ValidEnv, Baskets.UnlockOps, Baskets.PayOps, AllSound, Touches, ReadConfigRecord, At, Settles, Signed;
    var k, c := x.accounts[1], w.records[x.accounts[4]];
    FilledBasketLegs(e, w, x);
    OpenBasketFits(e, x.signers, w, k, x.accounts[2], x.data);
    BasketSize(e, w, k, x.accounts[2], x.data);
    var b := w.records[k];
    var pay, release := Baskets.PayOps(e, w, x, ReadConfigRecord(c), b, x.data, 0),
        Baskets.UnlockOps(e, w, x, b, x.data, 5, auth, None, 0);
    WantsAsk(e, x.signers, w.records, w, x, x.accounts[4], b, 0);
    ReleasesAsk(e, x.signers, w.records, w, x, b, x.data, 5, auth, None, 0);
    BothSound(e, x.signers, w.records, pay, release);
    TouchesSplit(pay, release);
    WipeAsks(e, x.signers, w.records, pay + release, k);
    ExecByCarry(e, x.signers, w, pay + release + [Wipe(k)]);
  }

  /** In every reachable state fill_basket is accepted exactly when its terms hold, every want leg is payable and every
      give leg releasable, and the token program carries out all payments and releases in turn; the token accounts are
      then what it leaves, and the log grows by the transfers. */
  lemma FillBasketAccepted(e: Env, w: World, x: Ix)
    requires ValidEnv(e) && Inv(e, w)
    ensures BasketFillTerms(e, w, x) ==>
        LegsListed(x, w.records[x.accounts[1]]) && GivesListed(x, w.records[x.accounts[1]], 5)
    ensures Step(e, w, 13, x).Ok? <==>
            && BasketFillTerms(e, w, x)
            && var b := w.records[x.accounts[1]];
               && LegsPayable(e, w, x, w.records[x.accounts[4]], b, 0)
               && LegsReleasable(e, w, x, b, x.data, 5, None, 0)
               && CarryOut(w.tokens, BasketFillTouches(w, x)).Some?
    ensures BasketFillTerms(e, w, x) && Step(e, w, 13, x).Ok? ==>
            && Some(Step(e, w, 13, x).value.tokens) == CarryOut(w.tokens, BasketFillTouches(w, x))
            && Step(e, w, 13, x).value.log == w.log + Paid(BasketFillTouches(w, x))
  {
    hide Baskets.FillBasket, OpenBasketAt, ReadBasket, Inv, LegsReleasable, LegsPayable, BasketFillTouches, CarryOut,
        Exec, Paid, ValidEnv, Baskets.UnlockOps, Baskets.PayOps, GivesListed, LegsListed, ReadConfig, At;
    BasketPlans(e, w, x);
    FillBasketGates(e, w, x);
    if BasketFillTerms(e, w, x) {
      var k, c, auth := FillBasketShape(e, x, w);
      ConfigReads(e, w, x.accounts[4]);
      SettledIsOpen(e, w, x.accounts[1], x.data, k, auth);
      FillBasketExec(e, w, x, auth);
    }
  }

  // ---- rewrap ----

  predicate MayRewrap(e: Env, w: World, x: Ix) {
    var d, a := x.data, x.accounts;
    && |d| == 64 && KeyAt(d, 32) != ZERO && |a| == 2 && a[0] in x.signers && a[1] in w.records
    && |w.records[a[1]]| == 541
    && var t := ReadBasket(w.records[a[1]]);
       t.status == 0 && t.authMode == 1 && t.claimAuth == e.hash(a[0]) && At(e, BasketSeed(t.maker, KeyAt(d, 0)), a[1])
  }

  lemma RewrapGates(e: Env, w: World, x: Ix)
    ensures Baskets.Rewrap(e, w, x).Ok? <==> MayRewrap(e, w, x)
  {
    hide ReadBasket, Find, PutClaim;
    var a := x.accounts;
    if |a| == 2 && a[1] in w.records && |w.records[a[1]]| == BASKET_LEN {
      BasketStatusReads(w.records[a[1]]);
    }
  }

  /** rewrap is accepted exactly when the key that hashes to the claim value signs for an open bearer basket at the
      address of its maker and nonce, and the next value is not zero. */
  lemma RewrapAccepted(e: Env, w: World, x: Ix)
    ensures Step(e, w, 15, x).Ok? <==> MayRewrap(e, w, x)
    ensures Step(e, w, 15, x).Ok? ==> Step(e, w, 15, x).value.tokens == w.tokens && Step(e, w, 15, x).value.log == w.log
  {
    hide Baskets.Rewrap, MayRewrap, Find, Exec, PutClaim, AllSound, Touches;
    BasketPlans(e, w, x);
    RewrapGates(e, w, x);
    if Baskets.Rewrap(e, w, x).Ok? {
      var k := RewrapShape(e, x, w);
      var write := Write(x.accounts[1], PutClaim(w.records[x.accounts[1]], KeyAt(x.data, 32)));
      assert Baskets.Rewrap(e, w, x).value == [write] + [];
      ExecByCarry(e, x.signers, w, [write] + []);
      Cons(e, x.signers, w.records, write, []);
      Nil(e, x.signers, w.records);
      NothingAsked(w.tokens);
    }
  }
}
