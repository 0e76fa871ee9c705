/** Fee vaults over runs: what is routed to a shard stays there until a sweep pays it to the fee wallet. */
module Fees {
  import opened Prelude
  import opened Bytes
  import opened Seeds
  import opened Layout
  import opened Ledger
  import opened FeeConfig
  import opened Royalty
  import opened Payments
  import opened Machine
  import opened Shapes
  import opened Consent
  import opened Runs
  import opened Effects
  import opened BasketEffects
  import opened RoyaltySettlement
  import Swaps
  import Offers
  import Baskets
  import Listings
  import Orders

  /** The address of a fee vault: the family seed of one mint and one shard. */
  predicate IsFeeVault(e: Env, k: Key, mint: Key, shard: byte) {
    Find(e.derive, FeeVaultSeed(mint, shard)).Ok? && k == Address(e.derive, FeeVaultSeed(mint, shard))
  }

  /** A fee vault, once open, belongs to the config address and to nobody's delegate. */
  predicate Sealed(e: Env, w: World, k: Key, mint: Key) {
    k in w.tokens ==>
        w.tokens[k].owner == Address(e.derive, ConfigSeed) && w.tokens[k].delegate.None? && w.tokens[k].mint == mint
  }

  lemma NewVaultSealed(e: Env, k: Key, mint: Key, shard: byte, m: Key, owner: Key)
    requires ValidEnv(e) && IsFeeVault(e, k, mint, shard) && IsVault(e, k, m, owner)
    ensures m == mint && owner == Address(e.derive, ConfigSeed)
  {
    var s, bump :| Create(e.derive, s, bump) == Some(k) && (s.VaultSeed? || s.OVaultSeed? || s.BVaultSeed?
        || (s.FeeVaultSeed? && s.mint == m && owner == Address(e.derive, ConfigSeed)));
    OneHome(e.derive, s, bump, FeeVaultSeed(mint, shard), Find(e.derive, FeeVaultSeed(mint, shard)).value.bump);
  }

  /** Only the config seed signs for the config address. */
  lemma OnlyConfigSigns(e: Env, x: Ix, auth: Authority)
    requires ValidEnv(e) && ValidIx(e, x) && Signed(e, x.signers, auth) && Find(e.derive, ConfigSeed).Ok?
    requires auth.Signer? || !auth.seed.ConfigSeed?
    ensures auth.key != Address(e.derive, ConfigSeed)
  {
    AddressDerived(e, ConfigSeed);
    if auth.Seeded? && auth.key == Address(e.derive, ConfigSeed) {
      OneHome(e.derive, auth.seed, auth.bump, ConfigSeed, Find(e.derive, ConfigSeed).value.bump);
    }
  }

  lemma ApplyFillsVault(e: Env, tag: byte, x: Ix, w: World, op: Op, k: Key, mint: Key, shard: byte)
    requires ValidEnv(e) && ValidIx(e, x) && IsFeeVault(e, k, mint, shard) && Sealed(e, w, k, mint)
        && Find(e.derive, ConfigSeed).Ok?
    requires Permitted(e, tag, x, op) && Apply(e, x.signers, w, op).Ok?
        && (tag == 11 ==> |x.accounts| > 1 && x.accounts[1] != k)
    ensures var v := Apply(e, x.signers, w, op).value;
        Sealed(e, v, k, mint) && Balance(v, k) == Balance(w, k) + Inflow(MoveOf(op), k)
  {
    hide IsFeeVault, Derived, Create, IsVault, Address, SaleAccount, ValidIx, ValidEnv;
    if (op.Transfer? || op.CloseToken? || op.Approve? || op.Revoke?) && (op.auth.Signer? || !op.auth.seed.ConfigSeed?) {
      OnlyConfigSigns(e, x, op.auth);
    }
    if op.NewToken? && op.key == k {
      NewVaultSealed(e, k, mint, shard, op.mint, op.owner);
    }
    if op.Transfer? {
      assert MoveOf(op)[1..] == [];
    }
  }

  lemma {:induction false} ExecFillsVault(e: Env, tag: byte, x: Ix, w: World, ops: seq<Op>, k: Key, mint: Key,
      shard: byte)
    requires ValidEnv(e) && ValidIx(e, x) && IsFeeVault(e, k, mint, shard) && Sealed(e, w, k, mint)
        && Find(e.derive, ConfigSeed).Ok?
    requires AllConsented(e, tag, x, ops) && Exec(e, x.signers, w, ops).Ok?
        && (tag == 11 ==> |x.accounts| > 1 && x.accounts[1] != k)
    ensures var v := Exec(e, x.signers, w, ops).value;
        Sealed(e, v, k, mint) && Balance(v, k) == Balance(w, k) + Inflow(Moves(ops), k)
    decreases |ops|
  {
    hide Permitted, Sealed, Apply, IsFeeVault, ValidIx, ValidEnv, Balance;
    if ops != [] {
      ApplyFillsVault(e, tag, x, w, ops[0], k, mint, shard);
      ExecFillsVault(e, tag, x, Apply(e, x.signers, w, ops[0]).value, ops[1..], k, mint, shard);
      FlowsSplit(MoveOf(ops[0]), Moves(ops[1..]), k);
    }
  }

  /** Any instruction but a sweep of this vault leaves in it what it held and what was routed to it. */
  lemma CallFillsVault(e: Env, w: World, tag: byte, x: Ix, k: Key, mint: Key, shard: byte) returns (moves: seq<Move>)
    requires ValidEnv(e) && ValidIx(e, x) && IsFeeVault(e, k, mint, shard) && Sealed(e, w, k, mint)
        && Find(e.derive, ConfigSeed).Ok?
    requires Step(e, w, tag, x).Ok? && (tag == 11 ==> |x.accounts| > 1 && x.accounts[1] != k)
    ensures var v := Step(e, w, tag, x).value;
        v.log == w.log + moves && Sealed(e, v, k, mint) && Balance(v, k) == Balance(w, k) + Inflow(moves, k)
  {
    hide PlanOf, AllConsented, Exec, IsFeeVault, Sealed, Balance, ValidIx, ValidEnv;
    StepConsented(e, w, tag, x);
    ExecFillsVault(e, tag, x, w, PlanOf(e, w, tag, x).value, k, mint, shard);
    ExecRecords(e, x.signers, w, PlanOf(e, w, tag, x).value);
    moves := Moves(PlanOf(e, w, tag, x).value);
  }

  lemma OutsideKeepsVault(e: Env, w: World, v: World, k: Key, mint: Key, shard: byte)
    requires ValidEnv(e) && Outside(e, w, v) && IsFeeVault(e, k, mint, shard) && Sealed(e, w, k, mint)
        && Find(e.derive, ConfigSeed).Ok?
    ensures Sealed(e, v, k, mint) && Balance(w, k) <= Balance(v, k)
  {
    AddressDerived(e, FeeVaultSeed(mint, shard));
    AddressDerived(e, ConfigSeed);
  }

  /** The sweep of one vault: its whole balance goes to an account of the current fee wallet. The shard
      count is not read, so a vault stays sweepable after the count shrinks. */
  lemma SweepEmpties(e: Env, w: World, x: Ix) returns (k: Key, mint: Key, dest: Key, wallet: Key)
    requires ValidEnv(e) && Run(e, w, x, SweepFees(e, w, x)).Ok?
    ensures |x.data| == 1 && |x.accounts| == 6 && k == x.accounts[1] && mint == x.accounts[2] && dest == x.accounts[4]
        && IsFeeVault(e, k, mint, x.data[0])
    ensures Find(e.derive, ConfigSeed).Ok? && Address(e.derive, ConfigSeed) in w.records
        && |w.records[Address(e.derive, ConfigSeed)]| == CONFIG_LEN
    ensures wallet == ReadConfigRecord(w.records[Address(e.derive, ConfigSeed)]).feeWallet
        && IsTokenAccount(w, dest, mint, wallet)
    ensures var v := Run(e, w, x, SweepFees(e, w, x)).value;
            && v.log == w.log + (if Balance(w, k) == 0 then []
                else [Move(k, mint, dest, Address(e.derive, ConfigSeed), Balance(w, k))])
            && (Sealed(e, w, k, mint) ==> Sealed(e, v, k, mint))
            && (Sealed(e, w, k, mint) && wallet != Address(e.derive, ConfigSeed) ==>
                Balance(v, k) == 0 && Balance(v, dest) == Balance(w, dest) + Balance(w, k))
  {
    hide SweepFees;
    var cfg;
    k, mint, dest, cfg := SweepFeesShape(e, x, w);
    wallet := KeyAt(w.records[cfg.key], C_FEE_WALLET);
    var ops := SweepFees(e, w, x).value;
    if w.tokens[k].amount != 0 {
      ExecCons(e, x.signers, w, ops[0], []);
      assert ops == [ops[0]] + [];
    }
  }

  /** A sweep is never refused for its shard: whoever signs, for any shard index, whatever the policy now
      says, if the vault is open and the destination is the fee wallet's and has room. */
  lemma SweepSucceeds(e: Env, w: World, x: Ix, mint: Key, shard: byte, config: Key)
    requires ValidEnv(e) && |x.data| == 1 && x.data[0] == shard && |x.accounts| == 6 && x.accounts[0] in x.signers
    requires IsFeeVault(e, x.accounts[1], mint, shard) && x.accounts[2] == mint && x.accounts[3] == config
        && mint in e.mints
    requires Find(e.derive, ConfigSeed).Ok? && config == Address(e.derive, ConfigSeed) && config in w.records
        && |w.records[config]| == CONFIG_LEN
    requires x.accounts[1] in w.tokens && Sealed(e, w, x.accounts[1], mint)
    requires IsTokenAccount(w, x.accounts[4], mint, ReadConfigRecord(w.records[config]).feeWallet)
    requires Balance(w, x.accounts[4]) + Balance(w, x.accounts[1]) < U64
    ensures Run(e, w, x, SweepFees(e, w, x)).Ok?
  {
    var k, dest, cfg := x.accounts[1], x.accounts[4], Find(e.derive, ConfigSeed).value;
    assert KeyAt(w.records[config], C_FEE_WALLET) == ReadConfigRecord(w.records[config]).feeWallet;
    var amount := w.tokens[k].amount;
    var move := Transfer(k, mint, dest, Seeded(config, ConfigSeed, cfg.bump), amount);
    if amount != 0 {
      assert SweepFees(e, w, x) == Ok([move]);
      assert Apply(e, x.signers, w, move).Ok?;
      OneOp(e, x.signers, w, move);
    }
  }

  // ---- over runs ----

  /** The instruction sweeps this vault. */
  predicate Sweeps(l: Label, k: Key) {
    l.Call? && l.tag == 11 && |l.x.accounts| > 1 && l.x.accounts[1] == k
  }

  lemma FreshVaultSealed(e: Env, w: World, k: Key, mint: Key, shard: byte)
    requires Genesis(e, w) && IsFeeVault(e, k, mint, shard)
    ensures Sealed(e, w, k, mint) && Balance(w, k) == 0
  {
    AddressDerived(e, FeeVaultSeed(mint, shard));
  }

  lemma SameLog(e: Env, w: World, v: World)
    requires Outside(e, w, v)
    ensures v.log == w.log
  {
  }

  lemma SweepHasAccounts(e: Env, w: World, tag: byte, x: Ix)
    requires Step(e, w, tag, x).Ok?
    ensures tag == 11 ==> |x.accounts| > 1
  {
    hide SweepFees, Exec;
    if tag == 11 {
      SalePlans(e, w, x);
      var vault, mint, dest, cfg := SweepFeesShape(e, x, w);
    }
  }

  lemma SameVault(e: Env, k: Key, mint: Key, shard: byte, m: Key, s: byte)
    requires ValidEnv(e) && IsFeeVault(e, k, mint, shard) && IsFeeVault(e, k, m, s)
    ensures m == mint && s == shard
  {
    OneHome(e.derive, FeeVaultSeed(mint, shard), Find(e.derive, FeeVaultSeed(mint, shard)).value.bump,
        FeeVaultSeed(m, s), Find(e.derive, FeeVaultSeed(m, s)).value.bump);
  }

  lemma VaultStep(e: Env, w: World, l: Label, v: World, k: Key, mint: Key, shard: byte)
    requires ValidEnv(e) && Next(e, w, l, v) && IsFeeVault(e, k, mint, shard) && Sealed(e, w, k, mint)
        && Find(e.derive, ConfigSeed).Ok?
    ensures Sealed(e, v, k, mint) && |w.log| <= |v.log| && v.log[..|w.log|] == w.log
    ensures !Sweeps(l, k) ==> Balance(w, k) + Inflow(v.log[|w.log|..], k) <= Balance(v, k)
  {
    hide Step, Outside, ValidIx, ValidEnv, Sealed, Balance, IsFeeVault;
    match l
    case Elsewhere => {
      OutsideKeepsVault(e, w, v, k, mint, shard);
      SameLog(e, w, v);
      assert v.log[|w.log|..] == [];
    }
    case Call(tag, x) => {
      if Sweeps(l, k) {
        SalePlans(e, w, x);
        var p, m, dest, wallet := SweepEmpties(e, w, x);
        SameVault(e, k, mint, shard, m, x.data[0]);
      } else {
        SweepHasAccounts(e, w, tag, x);
        var moves := CallFillsVault(e, w, tag, x, k, mint, shard);
        assert v.log[|w.log|..] == moves;
      }
    }
  }

  lemma {:induction false} FeeVaultsStaySealed(e: Env, r: Trace, n: nat, k: Key, mint: Key, shard: byte)
    requires IsRun(e, r) && n < |r.states| && IsFeeVault(e, k, mint, shard) && Find(e.derive, ConfigSeed).Ok?
    ensures Sealed(e, r.states[n], k, mint)
  {
    hide Step, Outside, IsFeeVault, ValidIx, ValidEnv, Sealed, Balance;
    if n == 0 {
      FreshVaultSealed(e, r.states[0], k, mint, shard);
    } else {
      FeeVaultsStaySealed(e, r, n - 1, k, mint, shard);
      assert Next(e, r.states[n - 1], r.labels[n - 1], r.states[n]);
      VaultStep(e, r.states[n - 1], r.labels[n - 1], r.states[n], k, mint, shard);
    }
  }

  /** Between sweeps a shard vault only grows: in every run it holds at least what it held after its last
      sweep and every fee routed to it since. */
  lemma {:induction false} VaultsHoldTheFeesSinceASweep(e: Env, r: Trace, m: nat, n: nat, k: Key, mint: Key,
      shard: byte)
    requires IsRun(e, r) && m <= n < |r.states| && IsFeeVault(e, k, mint, shard) && Find(e.derive, ConfigSeed).Ok?
    requires forall i :: m <= i < n ==> !Sweeps(r.labels[i], k)
    ensures |r.states[m].log| <= |r.states[n].log|
    ensures Balance(r.states[m], k) + Inflow(r.states[n].log[|r.states[m].log|..], k) <= Balance(r.states[n], k)
    decreases n
  {
    hide Step, Outside, IsFeeVault, ValidIx, ValidEnv, Sealed, Balance, Genesis, Sweeps;
    if m == n {
      assert r.states[n].log[|r.states[m].log|..] == [];
    } else {
      VaultsHoldTheFeesSinceASweep(e, r, m, n - 1, k, mint, shard);
      var u, w, v := r.states[m], r.states[n - 1], r.states[n];
      assert Next(e, w, r.labels[n - 1], v);
      FeeVaultsStaySealed(e, r, n - 1, k, mint, shard);
      VaultStep(e, w, r.labels[n - 1], v, k, mint, shard);
      assert v.log[|u.log|..] == w.log[|u.log|..] + v.log[|w.log|..];
      FlowsSplit(w.log[|u.log|..], v.log[|w.log|..], k);
    }
  }

  // ---- where fees go ----

  lemma ChecksOfRun(e: Env, w: World, x: Ix, plan: Plan)
    requires Run(e, w, x, plan).Ok?
    ensures forall op :: op in plan.value && op.Check? ==> op.ok
  {
    ChecksHold(e, x.signers, w, plan.value);
  }

  /** The fee of a fill goes where the policy in force says. */
  lemma FillRoutesItsFee(e: Env, w: World, x: Ix) returns (s: Swap, c: Config)
    requires Run(e, w, x, Swaps.Fill(e, w, x)).Ok?
    ensures |x.data| == 48 && |x.accounts| >= 12 && x.accounts[1] in w.records
        && |w.records[x.accounts[1]]| == SWAP_LEN && s == ReadSwap(w.records[x.accounts[1]])
    ensures ReadConfig(e, w, x.accounts[10]) == Ok(c) && FeeRouted(e, w, c, s.wantMint, x.accounts[11], s.wantAmount,
        x.data[0])
  {
    hide Swaps.Fill, PriceOps, ReadSwap, Exec, FeeRouted, ReadConfig;
    var nonce;
    s, c, nonce := FillShape(e, x, w);
    var a := x.accounts;
    ChecksOfRun(e, w, x, Swaps.Fill(e, w, x));
    PriceRoutes(e, w, c, a[6], s.wantMint, a[11], a[8], Signer(a[0]), s.wantAmount, nonce[0],
        Swaps.Fill(e, w, x).value);
  }

  lemma AcceptRoutesItsFee(e: Env, w: World, x: Ix) returns (o: Offer, c: Config)
    requires Run(e, w, x, Offers.AcceptOffer(e, w, x)).Ok?
    ensures |x.data| == 64 && |x.accounts| == 13 && x.accounts[3] in w.records
        && |w.records[x.accounts[3]]| == OFFER_LEN && o == ReadOffer(w.records[x.accounts[3]])
    ensures ReadConfig(e, w, x.accounts[11]) == Ok(c) && FeeRouted(e, w, c, o.wantMint, x.accounts[12], o.wantAmount,
        x.data[0])
  {
    hide Offers.AcceptOffer, PriceOps, ReadSwap, ReadOffer, Exec, FeeRouted, ReadConfig, Offers.HandOver;
    var s, sn, on;
    s, o, c, sn, on := AcceptOfferShape(e, x, w);
    var a := x.accounts;
    ChecksOfRun(e, w, x, Offers.AcceptOffer(e, w, x));
    PriceRoutes(e, w, c, a[4], s.wantMint, a[12], a[9], Seeded(a[3], OfferSeed(o.offerer, on), o.bump), o.wantAmount,
        sn[0], Offers.AcceptOffer(e, w, x).value);
  }

  lemma ListingRoutesItsFee(e: Env, w: World, x: Ix) returns (s: Swap, c: Config)
    requires Run(e, w, x, Listings.FillListing(e, w, x)).Ok?
    ensures |x.data| == 48 && |x.accounts| >= 12 && x.accounts[1] in w.records
        && |w.records[x.accounts[1]]| == SWAP_LEN && s == ReadSwap(w.records[x.accounts[1]])
    ensures ReadConfig(e, w, x.accounts[10]) == Ok(c) && FeeRouted(e, w, c, s.wantMint, x.accounts[11], s.wantAmount,
        x.data[0])
  {
    hide Listings.FillListing, RoyaltyOps, FeeLeg, ReadSwap, Exec, FeeRouted, ReadConfig, Bill, Splits, Payable,
        RoyaltyLeg;
    var nonce;
    s, nonce := FillListingShape(e, x, w);
    var a, none := x.accounts, s.royaltyMode == ROYALTY_NONE;
    var bill;
    c, bill := RoyaltyShape(e, w, a[10], a[7], s.wantMint, a[11], a[8], a[0], s.wantAmount, U64At(x.data, 40),
        x.data[0], s.royaltyMode, s.makerPct,
                            if none then None else Some(x.metadata), if none then [] else a[14..]);
    ChecksOfRun(e, w, x, Listings.FillListing(e, w, x));
    FeeLegRoutes(e, w, c, a[7], s.wantMint, a[11], Signer(a[0]), s.wantAmount, x.data[0],
        Listings.FillListing(e, w, x).value);
  }

  lemma OrderRoutesItsFee(e: Env, w: World, x: Ix) returns (c: Config)
    requires Run(e, w, x, Orders.SettleSignedOrder(e, w, x)).Ok?
    ensures |x.data| == 90 && |x.accounts| >= 15 && ReadConfig(e, w, x.accounts[11]) == Ok(c)
    ensures FeeRouted(e, w, c, x.accounts[3], x.accounts[12], U64At(x.data, 8), x.data[56])
  {
    hide Orders.SettleSignedOrder, RoyaltyOps, FeeLeg, Exec, FeeRouted, ReadConfig, Bill, Splits, Payable, RoyaltyLeg,
        Orders.OrderChecks, Orders.ProvesSignature;
    var t, auth, done := SettleOrderShape(e, x, w);
    var a := x.accounts;
    ChecksOfRun(e, w, x, Orders.SettleSignedOrder(e, w, x));
    Unstopped(OrderRoyalty(e, w, x, t));
    var bill;
    c, bill := RoyaltyShape(e, w, a[11], a[6], t.wantMint, a[12], a[7], a[0], t.wantAmount, U64 - 1, t.nonce[0],
        t.royaltyMode, t.makerPct,
                            if t.royaltyMode == ROYALTY_NONE then None else Some(x.metadata),
                                if |a| > 17 then a[17..] else []);
    FeeLegRoutes(e, w, c, a[6], t.wantMint, a[12], Signer(a[0]), t.wantAmount, t.nonce[0],
        Orders.SettleSignedOrder(e, w, x).value);
  }

  lemma BidRoutesItsFee(e: Env, w: World, x: Ix) returns (c: Config)
    requires Run(e, w, x, Orders.SettleSignedBid(e, w, x)).Ok?
    ensures |x.data| == 90 && |x.accounts| == 16 && ReadConfig(e, w, x.accounts[7]) == Ok(c)
    ensures FeeRouted(e, w, c, x.accounts[2], x.accounts[8], U64At(x.data, 0), x.data[56])
  {
    hide Orders.SettleSignedBid, PriceOps, Exec, FeeRouted, ReadConfig, Orders.BidChecks, Orders.ProvesSignature;
    var t, auth, done := SettleBidShape(e, x, w);
    var a := x.accounts;
    var order := Seeded(auth.key, OrderSeed(a[1]), auth.bump);
    ChecksOfRun(e, w, x, Orders.SettleSignedBid(e, w, x));
    Unstopped(Orders.CoinsOps(e, w, a[7], a[4], t.giveMint, a[8], a[5], order, t.giveAmount, t.nonce[0]));
    c := ReadConfig(e, w, a[7]).value;
    PriceRoutes(e, w, c, a[4], t.giveMint, a[8], a[5], order, t.giveAmount, t.nonce[0],
        Orders.SettleSignedBid(e, w, x).value);
  }

  predicate LegFeeRouted(e: Env, w: World, x: Ix, c: Config, b: seq<byte>, nonce: Key, j: nat)
    requires |b| == BASKET_LEN && ReadBasket(b).wantCount <= MAX_LEG && j < ReadBasket(b).wantCount
    requires |x.accounts| == 5 + ReadBasket(b).giveCount * 3 + ReadBasket(b).wantCount * 4
  {
    FeeRouted(e, w, c, WantEntry(b, j).mint, x.accounts[5 + ReadBasket(b).giveCount * 3 + j * 4 + 3],
        WantEntry(b, j).amount, nonce[0])
  }

  lemma PayLegRoutes(e: Env, w: World, x: Ix, c: Config, b: seq<byte>, nonce: Key, j: nat)
    requires |b| == BASKET_LEN && ReadBasket(b).wantCount <= MAX_LEG && j < ReadBasket(b).wantCount
    requires |x.accounts| == 5 + ReadBasket(b).giveCount * 3 + ReadBasket(b).wantCount * 4
    requires Passes(Baskets.PayLeg(e, w, x, c, b, nonce, j))
    ensures LegFeeRouted(e, w, x, c, b, nonce, j)
  {
    hide WantEntry, ReadBasket, IsTokenAccount, PriceOps, FeeRouted;
    var at, entry := 5 + ReadBasket(b).giveCount * 3 + j * 4, WantEntry(b, j);
    var ops := Baskets.PayLeg(e, w, x, c, b, nonce, j);
    assert ops[0] in ops;
    PriceRoutes(e, w, c, x.accounts[at + 1], x.accounts[at], x.accounts[at + 3], x.accounts[at + 2],
        Signer(x.accounts[0]), entry.amount, nonce[0], ops);
  }

  lemma {:induction false} PayOpsRoute(e: Env, w: World, x: Ix, c: Config, b: seq<byte>, nonce: Key, j: nat)
    requires |b| == BASKET_LEN && ReadBasket(b).wantCount <= MAX_LEG && j <= ReadBasket(b).wantCount
    requires |x.accounts| == 5 + ReadBasket(b).giveCount * 3 + ReadBasket(b).wantCount * 4
    requires Passes(Baskets.PayOps(e, w, x, c, b, nonce, j))
    ensures forall k :: j <= k < ReadBasket(b).wantCount ==> LegFeeRouted(e, w, x, c, b, nonce, k)
    decreases ReadBasket(b).wantCount - j
  {
    hide Baskets.PayLeg, ReadBasket, Passes, LegFeeRouted;
    if j < ReadBasket(b).wantCount {
      PartsPass(Baskets.PayLeg(e, w, x, c, b, nonce, j), Baskets.PayOps(e, w, x, c, b, nonce, j + 1));
      PayLegRoutes(e, w, x, c, b, nonce, j);
      PayOpsRoute(e, w, x, c, b, nonce, j + 1);
    }
  }

  /** Every want leg of a basket routes its own fee. */
  lemma BasketRoutesItsFees(e: Env, w: World, x: Ix) returns (k: Basket, c: Config)
    requires ValidEnv(e) && Inv(e, w) && Run(e, w, x, Baskets.FillBasket(e, w, x)).Ok?
    ensures |x.data| == 32 && |x.accounts| > 4 && x.accounts[1] in w.records
        && |w.records[x.accounts[1]]| == BASKET_LEN && k == ReadBasket(w.records[x.accounts[1]])
    ensures ReadConfig(e, w, x.accounts[4]) == Ok(c) && k.wantCount <= MAX_LEG
        && |x.accounts| == 5 + k.giveCount * 3 + k.wantCount * 4
    ensures forall j :: 0 <= j < k.wantCount ==> LegFeeRouted(e, w, x, c, w.records[x.accounts[1]], x.data, j)
  {
    hide Baskets.FillBasket, Baskets.PayOps, Baskets.UnlockOps, ReadBasket, Exec, Inv, ReadConfig, LegFeeRouted, Passes;
    var auth;
    k, c, auth := FillBasketShape(e, x, w);
    SettledBasketFits(e, w, x.accounts[1], x.data, k, auth);
    var b := w.records[x.accounts[1]];
    var pay, unlock := Baskets.PayOps(e, w, x, c, b, x.data, 0),
        Baskets.UnlockOps(e, w, x, b, x.data, 5, auth, None, 0);
    AllPass(e, x.signers, w, pay + unlock + [Wipe(x.accounts[1])]);
    PartsPass(pay + unlock, [Wipe(x.accounts[1])]);
    PartsPass(pay, unlock);
    PayOpsRoute(e, w, x, c, b, x.data, 0);
  }

  // ---- cutting a want leg into several ----

  /** The amounts a basket asks of one mint, leg by leg, from leg j on. */
  function Asked(b: seq<byte>, mint: Key, j: nat): seq<nat>
    requires |b| == BASKET_LEN && ReadBasket(b).wantCount <= MAX_LEG && j <= ReadBasket(b).wantCount
    decreases ReadBasket(b).wantCount - j
  {
    if j == ReadBasket(b).wantCount then [] else
    (if WantEntry(b, j).mint == mint then [WantEntry(b, j).amount] else []) + Asked(b, mint, j + 1)
  }

  /** The fee transfers of the want legs of one mint in all: the first part of each leg of `PayMoves`. */
  function Skimmed(x: Ix, c: Config, b: seq<byte>, mint: Key, j: nat): nat
    requires |b| == BASKET_LEN && ReadBasket(b).wantCount <= MAX_LEG && j <= ReadBasket(b).wantCount
    requires |x.accounts| == 5 + ReadBasket(b).giveCount * 3 + ReadBasket(b).wantCount * 4
    decreases ReadBasket(b).wantCount - j
  {
    if j == ReadBasket(b).wantCount then 0 else
    var at := 5 + ReadBasket(b).giveCount * 3 + j * 4;
    (if WantEntry(b, j).mint == mint
     then Total(FeeMoves(c, x.accounts[at + 1], mint, x.accounts[at + 3], x.accounts[0], WantEntry(b, j).amount))
     else 0)
    + Skimmed(x, c, b, mint, j + 1)
  }

  lemma FeeMovesTotal(c: Config, src: Key, mint: Key, feeAccount: Key, auth: Key, amount: nat)
    requires amount < U64 && c.feeBps <= BPS_DENOM
    ensures Total(FeeMoves(c, src, mint, feeAccount, auth, amount)) == amount * c.feeBps / BPS_DENOM
  {
    BpsFits(amount, c.feeBps);
    var fee := FeeMoves(c, src, mint, feeAccount, auth, amount);
    if fee != [] {
      OneTotal(fee[0]);
    }
  }

  lemma {:induction false} SkimmedIsFeeSum(x: Ix, c: Config, b: seq<byte>, mint: Key, j: nat)
    requires |b| == BASKET_LEN && ReadBasket(b).wantCount <= MAX_LEG && j <= ReadBasket(b).wantCount
    requires |x.accounts| == 5 + ReadBasket(b).giveCount * 3 + ReadBasket(b).wantCount * 4
    requires c.feeBps <= BPS_DENOM
    ensures Skimmed(x, c, b, mint, j) == FeeSum(Asked(b, mint, j), c.feeBps)
    decreases ReadBasket(b).wantCount - j
  {
    hide ReadBasket, WantEntry, FeeMoves, Total;
    if j < ReadBasket(b).wantCount {
      SkimmedIsFeeSum(x, c, b, mint, j + 1);
      var at, rest := 5 + ReadBasket(b).giveCount * 3 + j * 4, Asked(b, mint, j + 1);
      FeeMovesTotal(c, x.accounts[at + 1], mint, x.accounts[at + 3], x.accounts[0], WantEntry(b, j).amount);
      assert ([WantEntry(b, j).amount] + rest)[1..] == rest;
      assert [] + rest == rest;
    }
  }

  lemma OneFee(amount: nat, bps: nat)
    ensures FeeSum([amount], bps) == amount * bps / 10_000
  {
    assert [amount][1..] == [];
  }

  /** The basket an accepted fill settles, with the policy it reads: its legs are within the limits and its accounts
      are all there, and the fill paid exactly its want legs and released exactly its give legs. */
  ghost predicate FilledBasket(e: Env, w: World, x: Ix, b: seq<byte>, c: Config) {
    && |x.data| == 32 && |x.accounts| > 4 && x.accounts[1] in w.records && w.records[x.accounts[1]] == b
    && |b| == BASKET_LEN && ReadBasket(b).giveCount <= MAX_LEG && ReadBasket(b).wantCount <= MAX_LEG
    && |x.accounts| == 5 + ReadBasket(b).giveCount * 3 + ReadBasket(b).wantCount * 4
    && ReadConfig(e, w, x.accounts[4]) == Ok(c) && c.feeBps <= BPS_DENOM
    && Run(e, w, x, Baskets.FillBasket(e, w, x)).Ok?
    && ReleasesAll(e, w, Run(e, w, x, Baskets.FillBasket(e, w, x)).value, x, b, 5, x.accounts[1], PayMoves(x, c, b, 0))
  }

  lemma AcceptedFill(e: Env, w: World, x: Ix) returns (b: seq<byte>, c: Config)
    requires ValidEnv(e) && ValidIx(e, x) && Inv(e, w) && Run(e, w, x, Baskets.FillBasket(e, w, x)).Ok?
    ensures FilledBasket(e, w, x, b, c)
  {
    hide Baskets.FillBasket, ReadBasket, Exec, Inv, ReleasesAll, ReadConfig, PayMoves, ValidIx, ValidEnv, PaysMaker;
    var p;
    p, c := BasketFillSettles(e, w, x);
    b := w.records[x.accounts[1]];
    ConfigRateFits(e, w, x.accounts[4], c, 0);
  }

  /** Two baskets are filled at one fee rate. One asks a mint in a single leg, the other asks the same total in k
      legs: the second never pays more in fees of that mint, and at most k - 1 units less. */
  lemma {:induction false} SplittingALegLowersTheFee(e: Env, w: World, x: Ix, one: seq<byte>, c: Config, v: World,
      y: Ix, many: seq<byte>, d: Config, mint: Key)
    requires FilledBasket(e, w, x, one, c) && FilledBasket(e, v, y, many, d) && c.feeBps == d.feeBps
    requires Asked(many, mint, 0) != [] && Asked(one, mint, 0) == [Sum(Asked(many, mint, 0))]
    ensures Skimmed(y, d, many, mint, 0) <= Skimmed(x, c, one, mint, 0)
        <= Skimmed(y, d, many, mint, 0) + |Asked(many, mint, 0)| - 1
  {
    hide Baskets.FillBasket, ReadBasket, Exec, ReleasesAll, ReadConfig, PayMoves, Asked, Skimmed, FeeSum;
    SkimmedIsFeeSum(x, c, one, mint, 0);
    SkimmedIsFeeSum(y, d, many, mint, 0);
    CutsLowerTheFee(Asked(many, mint, 0), c.feeBps);
    OneFee(Sum(Asked(many, mint, 0)), c.feeBps);
  }
}
