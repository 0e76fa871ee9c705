/** Basket atomicity: every leg is released exactly and closed, every want leg is paid, for every count. */
module BasketEffects {
  import opened Prelude
  import opened Bytes
  import opened Seeds
  import opened Layout
  import opened Ledger
  import opened FeeConfig
  import opened Payments
  import opened Machine
  import opened Shapes
  import opened Invariant
  import opened Consent
  import opened Effects
  import opened Baskets
  import Lifecycle
  import Histories

  /** The address of leg i's vault. */
  function LegVault(e: Env, b: seq<byte>, nonce: Key, i: nat): Key
    requires |b| == BASKET_LEN && i < MAX_LEG
  {
    Address(e.derive, BVaultSeed(ReadBasket(b).maker, nonce, i))
  }

  /** One transfer for every leg from i on: the recorded amount of the recorded mint, out of its own vault. */
  function UnlockMoves(e: Env, x: Ix, b: seq<byte>, nonce: Key, base: nat, basket: Key, i: nat): seq<Move>
    requires |b| == BASKET_LEN && ReadBasket(b).giveCount <= MAX_LEG && i <= ReadBasket(b).giveCount
        && |x.accounts| >= base + ReadBasket(b).giveCount * 3
    decreases ReadBasket(b).giveCount - i
  {
    if i == ReadBasket(b).giveCount then [] else
    [Move(LegVault(e, b, nonce, i), GiveEntry(b, i).mint, x.accounts[base + i * 3 + 2], basket, GiveEntry(b, i).amount)]
    + UnlockMoves(e, x, b, nonce, base, basket, i + 1)
  }

  /** The fee and the price less fee of every want leg from j on, from the taker to the maker. */
  function PayMoves(x: Ix, c: Config, b: seq<byte>, j: nat): seq<Move>
    requires |b| == BASKET_LEN && ReadBasket(b).wantCount <= MAX_LEG && j <= ReadBasket(b).wantCount
    requires |x.accounts| == 5 + ReadBasket(b).giveCount * 3 + ReadBasket(b).wantCount * 4
    decreases ReadBasket(b).wantCount - j
  {
    if j == ReadBasket(b).wantCount then [] else
    var at := 5 + ReadBasket(b).giveCount * 3 + j * 4;
    PriceMoves(c, x.accounts[at + 1], WantEntry(b, j).mint, x.accounts[at + 3], x.accounts[at + 2], x.accounts[0],
        WantEntry(b, j).amount)
    + PayMoves(x, c, b, j + 1)
  }

  /** Every condition in the list holds. */
  predicate Passes(ops: seq<Op>) {
    forall op :: op in ops && op.Check? ==> op.ok
  }

  predicate OpensNone(ops: seq<Op>) {
    forall op :: op in ops ==> !op.NewToken?
  }

  lemma PartsPass(a: seq<Op>, b: seq<Op>)
    requires Passes(a + b)
    ensures Passes(a) && Passes(b)
  {
    assert forall op :: op in a || op in b ==> op in a + b;
  }

  lemma PartsOpenNone(a: seq<Op>, b: seq<Op>)
    requires OpensNone(a) && OpensNone(b)
    ensures OpensNone(a + b)
  {
  }

  lemma FourChecksOneMove(a: Op, b: Op, c: Op, d: Op, move: Op, close: Op)
    requires a.Check? && b.Check? && c.Check? && d.Check? && move.Transfer? && close.CloseToken?
    ensures Moves([a, b, c, d, move, close]) == MoveOf(move) && OpensNone([a, b, c, d, move, close])
  {
    var checks := [a, b, c, d];
    assert [a, b, c, d, move, close] == checks + ([move] + [close]);
    MovesSplit(checks, [move] + [close]);
    MovesSplit([move], [close]);
    NoTransfersNoMoves(checks);
    OneMove(move);
    OneMove(close);
  }

  lemma UnlockLegMoves(e: Env, w: World, x: Ix, b: seq<byte>, nonce: Key, base: nat, auth: Authority,
      payee: Option<Key>, i: nat)
    requires |b| == BASKET_LEN && ReadBasket(b).giveCount <= MAX_LEG && i < ReadBasket(b).giveCount
        && |x.accounts| >= base + ReadBasket(b).giveCount * 3
    requires Passes(UnlockLeg(e, w, x, b, nonce, base, auth, payee, i))
    ensures Moves(UnlockLeg(e, w, x, b, nonce, base, auth, payee, i)) ==
            [Move(LegVault(e, b, nonce, i), GiveEntry(b, i).mint, x.accounts[base + i * 3 + 2], auth.key,
                GiveEntry(b, i).amount)]
    ensures CloseToken(LegVault(e, b, nonce, i), auth) in UnlockLeg(e, w, x, b, nonce, base, auth, payee, i)
    ensures Find(e.derive, BVaultSeed(ReadBasket(b).maker, nonce, i)).Ok?
    ensures payee.Some? ==> IsTokenAccount(w, x.accounts[base + i * 3 + 2], GiveEntry(b, i).mint, payee.value)
    ensures OpensNone(UnlockLeg(e, w, x, b, nonce, base, auth, payee, i))
  {
    hide GiveEntry, ReadBasket, IsTokenAccount, Find, Moves;
    var ops := UnlockLeg(e, w, x, b, nonce, base, auth, payee, i);
    assert ops[0] in ops && ops[1] in ops && ops[2] in ops && ops[5] in ops;
    assert ops == [ops[0], ops[1], ops[2], ops[3], ops[4], ops[5]];
    FourChecksOneMove(ops[0], ops[1], ops[2], ops[3], ops[4], ops[5]);
  }

  /** Leg k's vault is the derived one, is closed by the list, and pays an account of the payee, if one is named. */
  ghost predicate UnlocksLeg(e: Env, w: World, x: Ix, b: seq<byte>, nonce: Key, base: nat, auth: Authority,
      payee: Option<Key>, k: nat, ops: seq<Op>)
    requires |b| == BASKET_LEN && ReadBasket(b).giveCount <= MAX_LEG && k < ReadBasket(b).giveCount
        && |x.accounts| >= base + ReadBasket(b).giveCount * 3
  {
    && CloseToken(LegVault(e, b, nonce, k), auth) in ops
    && Find(e.derive, BVaultSeed(ReadBasket(b).maker, nonce, k)).Ok?
    && (payee.Some? ==> IsTokenAccount(w, x.accounts[base + k * 3 + 2], GiveEntry(b, k).mint, payee.value))
  }

  /** What the unlock loop does from leg i on, read off its effects. */
  ghost predicate Unlocks(e: Env, w: World, x: Ix, b: seq<byte>, nonce: Key, base: nat, auth: Authority,
      payee: Option<Key>, i: nat, ops: seq<Op>)
    requires |b| == BASKET_LEN && ReadBasket(b).giveCount <= MAX_LEG
        && |x.accounts| >= base + ReadBasket(b).giveCount * 3
  {
    forall k :: i <= k < ReadBasket(b).giveCount ==> UnlocksLeg(e, w, x, b, nonce, base, auth, payee, k, ops)
  }

  lemma LegStillUnlocked(e: Env, w: World, x: Ix, b: seq<byte>, nonce: Key, base: nat, auth: Authority,
      payee: Option<Key>, k: nat, a: seq<Op>, rest: seq<Op>)
    requires |b| == BASKET_LEN && ReadBasket(b).giveCount <= MAX_LEG && k < ReadBasket(b).giveCount
        && |x.accounts| >= base + ReadBasket(b).giveCount * 3
    requires UnlocksLeg(e, w, x, b, nonce, base, auth, payee, k, a)
        || UnlocksLeg(e, w, x, b, nonce, base, auth, payee, k, rest)
    ensures UnlocksLeg(e, w, x, b, nonce, base, auth, payee, k, a + rest)
  {
    hide LegVault, GiveEntry, ReadBasket, IsTokenAccount, Find;
  }

  lemma UnlocksStep(e: Env, w: World, x: Ix, b: seq<byte>, nonce: Key, base: nat, auth: Authority, payee: Option<Key>,
      i: nat, leg: seq<Op>, rest: seq<Op>)
    requires |b| == BASKET_LEN && ReadBasket(b).giveCount <= MAX_LEG && i < ReadBasket(b).giveCount
        && |x.accounts| >= base + ReadBasket(b).giveCount * 3
    requires UnlocksLeg(e, w, x, b, nonce, base, auth, payee, i, leg)
    requires Unlocks(e, w, x, b, nonce, base, auth, payee, i + 1, rest)
    ensures Unlocks(e, w, x, b, nonce, base, auth, payee, i, leg + rest)
  {
    hide UnlocksLeg, ReadBasket;
    forall k | i <= k < ReadBasket(b).giveCount
      ensures UnlocksLeg(e, w, x, b, nonce, base, auth, payee, k, leg + rest)
    {
      LegStillUnlocked(e, w, x, b, nonce, base, auth, payee, k, leg, rest);
    }
  }

  lemma NothingLeft(e: Env, w: World, x: Ix, b: seq<byte>, nonce: Key, base: nat, auth: Authority, payee: Option<Key>,
      i: nat)
    requires |b| == BASKET_LEN && ReadBasket(b).giveCount <= MAX_LEG && i >= ReadBasket(b).giveCount
        && |x.accounts| >= base + ReadBasket(b).giveCount * 3
    ensures Unlocks(e, w, x, b, nonce, base, auth, payee, i, [])
  {
  }

  lemma NoOps()
    ensures Moves([]) == [] && OpensNone([])
  {
  }

  lemma {:induction false} UnlockOpsUnlock(e: Env, w: World, x: Ix, b: seq<byte>, nonce: Key, base: nat,
      auth: Authority, payee: Option<Key>, i: nat)
    requires |b| == BASKET_LEN && ReadBasket(b).giveCount <= MAX_LEG && i <= ReadBasket(b).giveCount
        && |x.accounts| >= base + ReadBasket(b).giveCount * 3
    requires Passes(UnlockOps(e, w, x, b, nonce, base, auth, payee, i))
    ensures Unlocks(e, w, x, b, nonce, base, auth, payee, i, UnlockOps(e, w, x, b, nonce, base, auth, payee, i))
    ensures OpensNone(UnlockOps(e, w, x, b, nonce, base, auth, payee, i))
    decreases ReadBasket(b).giveCount - i
  {
    hide UnlockLeg, GiveEntry, ReadBasket, IsTokenAccount, LegVault, Passes, OpensNone, Moves, Find, Unlocks;
    if i < ReadBasket(b).giveCount {
      var leg, rest := UnlockLeg(e, w, x, b, nonce, base, auth, payee, i),
          UnlockOps(e, w, x, b, nonce, base, auth, payee, i + 1);
      PartsPass(leg, rest);
      UnlockLegMoves(e, w, x, b, nonce, base, auth, payee, i);
      UnlockOpsUnlock(e, w, x, b, nonce, base, auth, payee, i + 1);
      PartsOpenNone(leg, rest);
      UnlocksStep(e, w, x, b, nonce, base, auth, payee, i, leg, rest);
    } else {
      NoOps();
      NothingLeft(e, w, x, b, nonce, base, auth, payee, i);
    }
  }

  lemma {:induction false} UnlockOpsMoves(e: Env, w: World, x: Ix, b: seq<byte>, nonce: Key, base: nat,
      auth: Authority, payee: Option<Key>, i: nat)
    requires |b| == BASKET_LEN && ReadBasket(b).giveCount <= MAX_LEG && i <= ReadBasket(b).giveCount
        && |x.accounts| >= base + ReadBasket(b).giveCount * 3
    requires Passes(UnlockOps(e, w, x, b, nonce, base, auth, payee, i))
    ensures Moves(UnlockOps(e, w, x, b, nonce, base, auth, payee, i)) == UnlockMoves(e, x, b, nonce, base, auth.key, i)
    decreases ReadBasket(b).giveCount - i
  {
    hide UnlockLeg, GiveEntry, ReadBasket, IsTokenAccount, LegVault, Passes, OpensNone, Moves, Find;
    if i < ReadBasket(b).giveCount {
      var leg, rest := UnlockLeg(e, w, x, b, nonce, base, auth, payee, i),
          UnlockOps(e, w, x, b, nonce, base, auth, payee, i + 1);
      PartsPass(leg, rest);
      UnlockLegMoves(e, w, x, b, nonce, base, auth, payee, i);
      UnlockOpsMoves(e, w, x, b, nonce, base, auth, payee, i + 1);
      MovesSplit(leg, rest);
    } else {
      NoOps();
    }
  }

  /** The account want leg j pays into belongs to the maker and is of the recorded mint. */
  predicate PaysMaker(w: World, x: Ix, b: seq<byte>, j: nat)
    requires |b| == BASKET_LEN && ReadBasket(b).wantCount <= MAX_LEG && j < ReadBasket(b).wantCount
    requires |x.accounts| == 5 + ReadBasket(b).giveCount * 3 + ReadBasket(b).wantCount * 4
  {
    IsTokenAccount(w, x.accounts[5 + ReadBasket(b).giveCount * 3 + j * 4 + 2], WantEntry(b, j).mint,
        ReadBasket(b).maker)
  }

  lemma PayLegMoves(e: Env, w: World, x: Ix, c: Config, b: seq<byte>, nonce: Key, j: nat)
    requires |b| == BASKET_LEN && ReadBasket(b).wantCount <= MAX_LEG && j < ReadBasket(b).wantCount
    requires |x.accounts| == 5 + ReadBasket(b).giveCount * 3 + ReadBasket(b).wantCount * 4
    requires Passes(PayLeg(e, w, x, c, b, nonce, j))
    ensures var at := 5 + ReadBasket(b).giveCount * 3 + j * 4;
            && Moves(PayLeg(e, w, x, c, b, nonce, j)) ==
               PriceMoves(c, x.accounts[at + 1], WantEntry(b, j).mint, x.accounts[at + 3], x.accounts[at + 2],
                   x.accounts[0], WantEntry(b, j).amount)
            && PaysMaker(w, x, b, j)
    ensures OpensNone(PayLeg(e, w, x, c, b, nonce, j))
  {
    hide WantEntry, ReadBasket, IsTokenAccount, PriceOps, PriceMoves, Moves;
    var at, entry := 5 + ReadBasket(b).giveCount * 3 + j * 4, WantEntry(b, j);
    var price := PriceOps(e, w, c, x.accounts[at + 1], x.accounts[at], x.accounts[at + 3], x.accounts[at + 2],
        Signer(x.accounts[0]), entry.amount, nonce[0]);
    var ops := PayLeg(e, w, x, c, b, nonce, j);
    var checks := [ops[0], ops[1], ops[2]];
    assert ops == checks + price;
    assert ops[0] in ops && ops[1] in ops;
    MovesSplit(checks, price);
    NoTransfersNoMoves(checks);
    PriceOpsMoves(e, w, c, x.accounts[at + 1], x.accounts[at], x.accounts[at + 3], x.accounts[at + 2],
        Signer(x.accounts[0]), entry.amount, nonce[0]);
    PriceOpensNothing(e, w, c, x.accounts[at + 1], x.accounts[at], x.accounts[at + 3], x.accounts[at + 2],
        Signer(x.accounts[0]), entry.amount, nonce[0]);
  }

  lemma {:induction false} PayOpsMoves(e: Env, w: World, x: Ix, c: Config, b: seq<byte>, nonce: Key, j: nat)
    requires |b| == BASKET_LEN && ReadBasket(b).wantCount <= MAX_LEG && j <= ReadBasket(b).wantCount
    requires |x.accounts| == 5 + ReadBasket(b).giveCount * 3 + ReadBasket(b).wantCount * 4
    requires Passes(PayOps(e, w, x, c, b, nonce, j))
    ensures Moves(PayOps(e, w, x, c, b, nonce, j)) == PayMoves(x, c, b, j)
    ensures forall k :: j <= k < ReadBasket(b).wantCount ==> PaysMaker(w, x, b, k)
    ensures OpensNone(PayOps(e, w, x, c, b, nonce, j))
    decreases ReadBasket(b).wantCount - j
  {
    hide PayLeg, WantEntry, ReadBasket, PaysMaker, PriceMoves, Passes, OpensNone, Moves;
    if j < ReadBasket(b).wantCount {
      var leg, rest := PayLeg(e, w, x, c, b, nonce, j), PayOps(e, w, x, c, b, nonce, j + 1);
      PartsPass(leg, rest);
      PayLegMoves(e, w, x, c, b, nonce, j);
      PayOpsMoves(e, w, x, c, b, nonce, j + 1);
      MovesSplit(leg, rest);
      PartsOpenNone(leg, rest);
    } else {
      NoOps();
    }
  }

  // ---- exactly the recorded amount leaves every vault ----

  lemma VaultsDiffer(e: Env, maker: Key, nonce: Key, i: byte, j: byte)
    requires ValidEnv(e) && i != j && Find(e.derive, BVaultSeed(maker, nonce, i)).Ok?
        && Find(e.derive, BVaultSeed(maker, nonce, j)).Ok?
    ensures Address(e.derive, BVaultSeed(maker, nonce, i)) != Address(e.derive, BVaultSeed(maker, nonce, j))
  {
    var p, q := Find(e.derive, BVaultSeed(maker, nonce, i)).value, Find(e.derive, BVaultSeed(maker, nonce, j)).value;
    if p.key == q.key {
      OneHome(e.derive, BVaultSeed(maker, nonce, i), p.bump, BVaultSeed(maker, nonce, j), q.bump);
    }
  }

  lemma LegVaultsDiffer(e: Env, b: seq<byte>, nonce: Key, i: nat, j: nat)
    requires ValidEnv(e) && |b| == BASKET_LEN && i < MAX_LEG && j < MAX_LEG && i != j
    requires Find(e.derive, BVaultSeed(ReadBasket(b).maker, nonce, i)).Ok?
        && Find(e.derive, BVaultSeed(ReadBasket(b).maker, nonce, j)).Ok?
    ensures LegVault(e, b, nonce, i) != LegVault(e, b, nonce, j)
  {
    hide ReadBasket, Find;
    VaultsDiffer(e, ReadBasket(b).maker, nonce, i, j);
  }

  /** The legs have vaults of their own even when they share a mint, so each vault pays its leg once. */
  lemma {:induction false} EachVaultPaysItsLeg(e: Env, x: Ix, b: seq<byte>, nonce: Key, base: nat, basket: Key, i: nat,
      k: nat)
    requires ValidEnv(e) && |b| == BASKET_LEN && ReadBasket(b).giveCount <= MAX_LEG
        && |x.accounts| >= base + ReadBasket(b).giveCount * 3
    requires i <= ReadBasket(b).giveCount && k < ReadBasket(b).giveCount
    requires forall j :: 0 <= j < ReadBasket(b).giveCount ==>
        Find(e.derive, BVaultSeed(ReadBasket(b).maker, nonce, j)).Ok?
    ensures Outflow(UnlockMoves(e, x, b, nonce, base, basket, i), LegVault(e, b, nonce, k))
        == if i <= k then GiveEntry(b, k).amount else 0
    decreases ReadBasket(b).giveCount - i
  {
    hide ReadBasket, GiveEntry, LegVault, Find, ValidEnv;
    if i < ReadBasket(b).giveCount {
      EachVaultPaysItsLeg(e, x, b, nonce, base, basket, i + 1, k);
      if i != k {
        LegVaultsDiffer(e, b, nonce, i, k);
      }
      var m := Move(LegVault(e, b, nonce, i), GiveEntry(b, i).mint, x.accounts[base + i * 3 + 2], basket,
          GiveEntry(b, i).amount);
      FlowsSplit([m], UnlockMoves(e, x, b, nonce, base, basket, i + 1), LegVault(e, b, nonce, k));
      OneFlow(m, LegVault(e, b, nonce, k));
    }
  }

  // ---- the settling instructions ----

  /** The transfers are those before and one for each leg; every vault is gone, and over the whole
      instruction exactly its recorded amount left it. */
  ghost predicate ReleasesAll(e: Env, w: World, v: World, x: Ix, b: seq<byte>, base: nat, basket: Key,
      before: seq<Move>)
    requires |x.data| == 32 && |b| == BASKET_LEN && ReadBasket(b).giveCount <= MAX_LEG
        && |x.accounts| >= base + ReadBasket(b).giveCount * 3
  {
    && v.log == w.log + before + UnlockMoves(e, x, b, x.data, base, basket, 0)
    && forall k :: 0 <= k < ReadBasket(b).giveCount ==>
         LegVault(e, b, x.data, k) !in v.tokens
         && Outflow(before + UnlockMoves(e, x, b, x.data, base, basket, 0), LegVault(e, b, x.data, k))
            == GiveEntry(b, k).amount
  }

  /** The vault of every leg belongs to the basket and holds the leg. */
  ghost predicate VaultsHold(e: Env, w: World, b: seq<byte>, nonce: Key, basket: Key)
    requires |b| == BASKET_LEN && ReadBasket(b).giveCount <= MAX_LEG
  {
    forall k :: 0 <= k < ReadBasket(b).giveCount ==>
        Holds(w.tokens, LegVault(e, b, nonce, k), basket, GiveEntry(b, k).mint, GiveEntry(b, k).amount)
  }

  lemma EveryVaultDerives(e: Env, w: World, x: Ix, b: seq<byte>, nonce: Key, base: nat, auth: Authority,
      payee: Option<Key>, ops: seq<Op>)
    requires |b| == BASKET_LEN && ReadBasket(b).giveCount <= MAX_LEG
        && |x.accounts| >= base + ReadBasket(b).giveCount * 3
    requires Unlocks(e, w, x, b, nonce, base, auth, payee, 0, ops)
    ensures forall j :: 0 <= j < ReadBasket(b).giveCount ==>
        Find(e.derive, BVaultSeed(ReadBasket(b).maker, nonce, j)).Ok?
    ensures forall k :: 0 <= k < ReadBasket(b).giveCount ==> CloseToken(LegVault(e, b, nonce, k), auth) in ops
    ensures payee.Some? ==> forall k ::
        0 <= k < ReadBasket(b).giveCount ==> IsTokenAccount(w, x.accounts[base + k * 3 + 2], GiveEntry(b, k).mint,
        payee.value)
  {
    hide ReadBasket, GiveEntry, IsTokenAccount, Find, LegVault;
    forall j | 0 <= j < ReadBasket(b).giveCount
      ensures Find(e.derive, BVaultSeed(ReadBasket(b).maker, nonce, j)).Ok?
      ensures CloseToken(LegVault(e, b, nonce, j), auth) in ops
      ensures payee.Some? ==> IsTokenAccount(w, x.accounts[base + j * 3 + 2], GiveEntry(b, j).mint, payee.value)
    {
      assert UnlocksLeg(e, w, x, b, nonce, base, auth, payee, j, ops);
    }
  }

  lemma VaultsGone(e: Env, signers: set<Key>, w: World, ops: seq<Op>, b: seq<byte>, nonce: Key, auth: Authority)
    requires |b| == BASKET_LEN && ReadBasket(b).giveCount <= MAX_LEG && Exec(e, signers, w, ops).Ok? && OpensNone(ops)
    requires forall k :: 0 <= k < ReadBasket(b).giveCount ==> CloseToken(LegVault(e, b, nonce, k), auth) in ops
    ensures forall k :: 0 <= k < ReadBasket(b).giveCount ==>
        LegVault(e, b, nonce, k) !in Exec(e, signers, w, ops).value.tokens
  {
    hide ReadBasket, LegVault, Exec;
    forall k | 0 <= k < ReadBasket(b).giveCount
      ensures LegVault(e, b, nonce, k) !in Exec(e, signers, w, ops).value.tokens
    {
      assert CloseToken(LegVault(e, b, nonce, k), auth) in ops;
      ClosedIsGone(e, signers, w, ops, LegVault(e, b, nonce, k));
    }
  }

  lemma WipeOpensNone(k: Key)
    ensures OpensNone([Wipe(k)])
  {
  }

  lemma AllPass(e: Env, signers: set<Key>, w: World, ops: seq<Op>)
    requires Exec(e, signers, w, ops).Ok?
    ensures Passes(ops)
  {
    ChecksHold(e, signers, w, ops);
  }

  lemma UnlockReleasesAll(e: Env, w: World, x: Ix, pay: seq<Op>, b: seq<byte>, base: nat, basket: Key, auth: Authority,
      payee: Option<Key>)
    requires ValidEnv(e) && |x.data| == 32 && |b| == BASKET_LEN && ReadBasket(b).giveCount <= MAX_LEG
        && |x.accounts| >= base + ReadBasket(b).giveCount * 3 && auth.key == basket
    requires OpensNone(pay) && Spares(pay, basket) && VaultsHold(e, w, b, x.data, basket)
    requires Exec(e, x.signers, w, pay + UnlockOps(e, w, x, b, x.data, base, auth, payee, 0) + [Wipe(basket)]).Ok?
    ensures ReleasesAll(e, w, Exec(e, x.signers, w, pay + UnlockOps(e, w, x, b, x.data, base, auth, payee, 0)
        + [Wipe(basket)]).value, x, b, base, basket, Moves(pay))
    ensures payee.Some? ==> forall k ::
        0 <= k < ReadBasket(b).giveCount ==> IsTokenAccount(w, x.accounts[base + k * 3 + 2], GiveEntry(b, k).mint,
        payee.value)
  {
    hide Exec, UnlockOps, ReadBasket, GiveEntry, IsTokenAccount, LegVault, Moves, Passes, OpensNone, Unlocks,
        UnlockMoves, Find, Outflow;
    var unlock := UnlockOps(e, w, x, b, x.data, base, auth, payee, 0);
    var ops := pay + unlock + [Wipe(basket)];
    AllPass(e, x.signers, w, ops);
    PartsPass(pay + unlock, [Wipe(basket)]);
    PartsPass(pay, unlock);
    UnlockOpsMoves(e, w, x, b, x.data, base, auth, payee, 0);
    UnlockOpsUnlock(e, w, x, b, x.data, base, auth, payee, 0);
    EveryVaultDerives(e, w, x, b, x.data, base, auth, payee, unlock);
    ExecRecords(e, x.signers, w, ops);
    MovesSplit(pay + unlock, [Wipe(basket)]);
    MovesSplit(pay, unlock);
    NoTransfersNoMoves([Wipe(basket)]);
    PartsOpenNone(pay, unlock);
    WipeOpensNone(basket);
    PartsOpenNone(pay + unlock, [Wipe(basket)]);
    VaultsGone(e, x.signers, w, ops, b, x.data, auth);
    assert ops == pay + (unlock + [Wipe(basket)]);
    ExecSplit(e, x.signers, w, pay, unlock + [Wipe(basket)]);
    forall k | 0 <= k < ReadBasket(b).giveCount
      ensures Outflow(Moves(pay) + UnlockMoves(e, x, b, x.data, base, basket, 0), LegVault(e, b, x.data, k))
          == GiveEntry(b, k).amount
    {
      EachVaultPaysItsLeg(e, x, b, x.data, base, basket, 0, k);
      NothingLeaves(e, x.signers, w, pay, LegVault(e, b, x.data, k), basket, GiveEntry(b, k).mint,
          GiveEntry(b, k).amount);
      FlowsSplit(Moves(pay), UnlockMoves(e, x, b, x.data, base, basket, 0), LegVault(e, b, x.data, k));
    }
  }

  /** A payment by a signer uses nobody's authority but the signer's. */
  lemma TakerSpares(e: Env, x: Ix, pay: seq<Op>, taker: Key, k: Key, s: Seed, bump: byte)
    requires ValidIx(e, x) && taker in x.signers && AllConfined(pay, {taker}, {})
    requires Create(e.derive, s, bump) == Some(k)
    ensures Spares(pay, k)
  {
    hide Create;
    forall i | 0 <= i < |pay|
      ensures !ActsAs(pay[i], k)
    {
      assert Confined(pay[i], {taker}, {});
      assert Derived(e.derive, k);
    }
  }

  lemma WellFormedBasket(e: Env, w: World, basket: Key)
    requires Inv(e, w) && basket in w.records && Live(w.records[basket]) && |w.records[basket]| == BASKET_LEN
    ensures var k := ReadBasket(w.records[basket]);
            1 <= k.giveCount <= MAX_LEG && k.wantCount <= MAX_LEG
                && (k.authMode == AUTH_NORMAL || k.authMode == AUTH_BEARER)
  {
    hide Legs, ReadBasket, Live, Backed, Homed;
  }

  /** The record of an accepted settle is within the program's limits, and its vaults hold every leg. */
  lemma SettledBasketFits(e: Env, w: World, basket: Key, nonce: Key, k: Basket, auth: Authority)
    requires ValidEnv(e) && Inv(e, w) && Settles(e, w, basket, nonce, k, auth)
    ensures 1 <= k.giveCount <= MAX_LEG && k.wantCount <= MAX_LEG
    ensures k.authMode == AUTH_NORMAL || k.authMode == AUTH_BEARER
    ensures VaultsHold(e, w, w.records[basket], nonce, basket)
  {
    hide Legs, ReadBasket, Live, GiveEntry, Holds, Inv;
    Lifecycle.BasketParty(w.records[basket]);
    Lifecycle.RederivedIsLive(e, w, basket, BasketSeed(k.maker, nonce), k.bump);
    WellFormedBasket(e, w, basket);
    Histories.OpenBasketIsBacked(e, w, k.maker, nonce, k.bump, basket, 0);
    forall i | 0 <= i < k.giveCount
      ensures Holds(w.tokens, LegVault(e, w.records[basket], nonce, i), basket, GiveEntry(w.records[basket], i).mint,
          GiveEntry(w.records[basket], i).amount)
    {
      Histories.OpenBasketIsBacked(e, w, k.maker, nonce, k.bump, basket, i);
    }
  }

  /** `fill_basket`: the taker pays the maker every want leg less its fee, then every give leg is released
      and its vault closed; all of it or nothing. */
  lemma BasketFillSettles(e: Env, w: World, x: Ix) returns (k: Basket, c: Config)
    requires ValidEnv(e) && ValidIx(e, x) && Inv(e, w) && Run(e, w, x, FillBasket(e, w, x)).Ok?
    ensures |x.data| == 32 && |x.accounts| > 4 && x.accounts[1] in w.records
        && |w.records[x.accounts[1]]| == BASKET_LEN && k == ReadBasket(w.records[x.accounts[1]])
    ensures ReadConfig(e, w, x.accounts[4]) == Ok(c) && x.accounts[0] in x.signers
        && (k.taker == ZERO || k.taker == x.accounts[0]) && w.now < k.expiry
    ensures 1 <= k.giveCount <= MAX_LEG && 1 <= k.wantCount <= MAX_LEG
        && |x.accounts| == 5 + k.giveCount * 3 + k.wantCount * 4
    ensures ReleasesAll(e, w, Run(e, w, x, FillBasket(e, w, x)).value, x, w.records[x.accounts[1]], 5, x.accounts[1],
        PayMoves(x, c, w.records[x.accounts[1]], 0))
    ensures forall j :: 0 <= j < k.wantCount ==> PaysMaker(w, x, w.records[x.accounts[1]], j)
  {
    hide FillBasket, PayOps, UnlockOps, ReadBasket, Exec, Inv, IsTokenAccount, ReleasesAll, Moves, ReadConfig,
        PaysMaker, Passes, OpensNone, VaultsHold, AllConfined, ValidIx, Create, Spares;
    var auth;
    k, c, auth := FillBasketShape(e, x, w);
    var b := w.records[x.accounts[1]];
    SettledBasketFits(e, w, x.accounts[1], x.data, k, auth);
    var pay := PayOps(e, w, x, c, b, x.data, 0);
    var ops := pay + UnlockOps(e, w, x, b, x.data, 5, auth, None, 0) + [Wipe(x.accounts[1])];
    AllPass(e, x.signers, w, ops);
    PartsPass(pay + UnlockOps(e, w, x, b, x.data, 5, auth, None, 0), [Wipe(x.accounts[1])]);
    PartsPass(pay, UnlockOps(e, w, x, b, x.data, 5, auth, None, 0));
    PayOpsMoves(e, w, x, c, b, x.data, 0);
    PayConfined(e, w, x, c, b, x.data, 0);
    TakerSpares(e, x, pay, x.accounts[0], x.accounts[1], BasketSeed(k.maker, x.data), k.bump);
    UnlockReleasesAll(e, w, x, pay, b, 5, x.accounts[1], auth, None);
  }

  lemma JustReleasesAll(e: Env, w: World, x: Ix, b: seq<byte>, base: nat, basket: Key, auth: Authority,
      payee: Option<Key>)
    requires ValidEnv(e) && |x.data| == 32 && |b| == BASKET_LEN && ReadBasket(b).giveCount <= MAX_LEG
        && |x.accounts| >= base + ReadBasket(b).giveCount * 3 && auth.key == basket
    requires VaultsHold(e, w, b, x.data, basket)
    requires Exec(e, x.signers, w, UnlockOps(e, w, x, b, x.data, base, auth, payee, 0) + [Wipe(basket)]).Ok?
    ensures ReleasesAll(e, w, Exec(e, x.signers, w, UnlockOps(e, w, x, b, x.data, base, auth, payee, 0)
        + [Wipe(basket)]).value, x, b, base, basket, [])
    ensures payee.Some? ==> forall k ::
        0 <= k < ReadBasket(b).giveCount ==> IsTokenAccount(w, x.accounts[base + k * 3 + 2], GiveEntry(b, k).mint,
        payee.value)
  {
    hide Exec, UnlockOps, ReadBasket, ReleasesAll, IsTokenAccount, GiveEntry, VaultsHold;
    NoOps();
    assert [] + UnlockOps(e, w, x, b, x.data, base, auth, payee, 0)
        == UnlockOps(e, w, x, b, x.data, base, auth, payee, 0);
    UnlockReleasesAll(e, w, x, [], b, base, basket, auth, payee);
  }

  /** `claim_bearer`: the signer whose key hashes to the claim value gets every leg released. */
  lemma BearerClaimReleases(e: Env, w: World, x: Ix) returns (k: Basket)
    requires ValidEnv(e) && Inv(e, w) && Run(e, w, x, ClaimBearer(e, w, x)).Ok?
    ensures |x.data| == 32 && |x.accounts| > 4 && x.accounts[2] in w.records
        && |w.records[x.accounts[2]]| == BASKET_LEN && k == ReadBasket(w.records[x.accounts[2]])
    ensures 1 <= k.giveCount <= MAX_LEG && |x.accounts| == 5 + k.giveCount * 3
    ensures k.authMode == AUTH_BEARER && x.accounts[1] in x.signers && e.hash(x.accounts[1]) == k.claimAuth
    ensures ReleasesAll(e, w, Run(e, w, x, ClaimBearer(e, w, x)).value, x, w.records[x.accounts[2]], 5, x.accounts[2],
        [])
  {
    hide ClaimBearer, UnlockOps, ReadBasket, Exec, Inv, ReleasesAll, VaultsHold;
    var auth;
    k, auth := ClaimBearerShape(e, x, w);
    SettledBasketFits(e, w, x.accounts[2], x.data, k, auth);
    JustReleasesAll(e, w, x, w.records[x.accounts[2]], 5, x.accounts[2], auth, None);
  }

  /** `cancel_basket`: signed by the maker, every leg returns to an account of the maker. */
  lemma BasketCancelReturns(e: Env, w: World, x: Ix) returns (k: Basket)
    requires ValidEnv(e) && Inv(e, w) && Run(e, w, x, CancelBasket(e, w, x)).Ok?
    ensures |x.data| == 32 && |x.accounts| > 5 && x.accounts[1] in w.records
        && |w.records[x.accounts[1]]| == BASKET_LEN && k == ReadBasket(w.records[x.accounts[1]])
    ensures 1 <= k.giveCount <= MAX_LEG && |x.accounts| == 6 + k.giveCount * 3 && k.authMode == AUTH_NORMAL
        && k.maker in x.signers
    ensures ReleasesAll(e, w, Run(e, w, x, CancelBasket(e, w, x)).value, x, w.records[x.accounts[1]], 6, x.accounts[1],
        [])
    ensures forall i :: 0 <= i < k.giveCount ==> IsTokenAccount(w, x.accounts[6 + i * 3 + 2],
        GiveEntry(w.records[x.accounts[1]], i).mint, k.maker)
  {
    hide CancelBasket, UnlockOps, ReadBasket, Exec, Inv, ReleasesAll, IsTokenAccount, GiveEntry, VaultsHold;
    var auth;
    k, auth := CancelBasketShape(e, x, w);
    SettledBasketFits(e, w, x.accounts[1], x.data, k, auth);
    JustReleasesAll(e, w, x, w.records[x.accounts[1]], 6, x.accounts[1], auth, Some(k.maker));
  }

  /** `expire_basket`: from expiry on, by anyone, every leg returns to an account of the maker. */
  lemma BasketExpiryReturns(e: Env, w: World, x: Ix) returns (k: Basket)
    requires ValidEnv(e) && Inv(e, w) && Run(e, w, x, ExpireBasket(e, w, x)).Ok?
    ensures |x.data| == 32 && |x.accounts| > 3 && x.accounts[1] in w.records
        && |w.records[x.accounts[1]]| == BASKET_LEN && k == ReadBasket(w.records[x.accounts[1]])
    ensures 1 <= k.giveCount <= MAX_LEG && |x.accounts| == 4 + k.giveCount * 3 && k.authMode == AUTH_NORMAL
        && k.expiry <= w.now
    ensures ReleasesAll(e, w, Run(e, w, x, ExpireBasket(e, w, x)).value, x, w.records[x.accounts[1]], 4, x.accounts[1],
        [])
    ensures forall i :: 0 <= i < k.giveCount ==> IsTokenAccount(w, x.accounts[4 + i * 3 + 2],
        GiveEntry(w.records[x.accounts[1]], i).mint, k.maker)
  {
    hide ExpireBasket, UnlockOps, ReadBasket, Exec, Inv, ReleasesAll, IsTokenAccount, GiveEntry, VaultsHold;
    var auth;
    k, auth := ExpireBasketShape(e, x, w);
    SettledBasketFits(e, w, x.accounts[1], x.data, k, auth);
    JustReleasesAll(e, w, x, w.records[x.accounts[1]], 4, x.accounts[1], auth, Some(k.maker));
  }
}
