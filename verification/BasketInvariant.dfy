/** Opening a basket: the leg loop funds every vault and records every leg. */
module BasketInvariant {
  import opened Prelude
  import opened Bytes
  import opened Seeds
  import opened Layout
  import opened Ledger
  import opened FeeConfig
  import opened Machine
  import opened Shapes
  import opened Invariant
  import opened Baskets

  /** The record when the give loop is done. */
  function WithGives(x: Ix, b: seq<byte>, i: nat): (r: seq<byte>)
    requires PayloadFits(x.data) && |x.accounts| == 6 + x.data[32] * 3 && |b| == BASKET_LEN && i <= x.data[32]
    ensures |r| == BASKET_LEN
    decreases x.data[32] - i
  {
    if i == x.data[32] then b else WithGives(x, WithGive(x, b, i), i + 1)
  }

  /** Leg j as the accounts and the payload name it. */
  function PaidLeg(x: Ix, j: nat): Leg
    requires PayloadFits(x.data) && |x.accounts| == 6 + x.data[32] * 3 && j < x.data[32]
  {
    Leg(x.accounts[6 + j * 3 + 1], x.accounts[6 + j * 3], GiveAmount(x.data, j))
  }

  lemma {:induction false} GivesReadBack(x: Ix, b: seq<byte>, i: nat)
    requires PayloadFits(x.data) && |x.accounts| == 6 + x.data[32] * 3 && |b| == BASKET_LEN && i <= x.data[32]
    ensures ReadBasket(WithGives(x, b, i)) == ReadBasket(b)
    ensures forall j :: 0 <= j < i ==> GiveEntry(WithGives(x, b, i), j) == GiveEntry(b, j)
    ensures forall j :: i <= j < x.data[32] ==>
        GiveEntry(WithGives(x, b, i), j) == Entry(PaidLeg(x, j).mint, PaidLeg(x, j).amount)
    ensures forall j :: 0 <= j < MAX_LEG ==> WantEntry(WithGives(x, b, i), j) == WantEntry(b, j)
    decreases x.data[32] - i
  {
    hide PutGive, ReadBasket, GiveEntry, WantEntry;
    if i < x.data[32] {
      PutGiveReadsBack(b, i, x.accounts[6 + i * 3], GiveAmount(x.data, i));
      GivesReadBack(x, WithGive(x, b, i), i + 1);
    }
  }

  lemma {:induction false} WantsReadBack(b: seq<byte>, d: seq<byte>, j: nat)
    requires |b| == BASKET_LEN && PayloadFits(d) && j <= d[33]
    ensures ReadBasket(WithWants(b, d, j)) == ReadBasket(b)
    ensures forall i :: 0 <= i < j ==> WantEntry(WithWants(b, d, j), i) == WantEntry(b, i)
    ensures forall i :: j <= i < d[33] ==>
        WantEntry(WithWants(b, d, j), i) == Entry(KeyAt(WantSlice(d, i), 0), U64At(WantSlice(d, i), 32))
    decreases d[33] - j
  {
    hide PutWant, ReadBasket, GiveEntry, WantEntry;
    if j < d[33] {
      PutWantReadsBack(b, j, WantSlice(d, j));
      WantsReadBack(PutWant(b, j, WantSlice(d, j)), d, j + 1);
    }
  }

  /** For every basket count: the header, every want entry and every give entry are read back as given. */
  lemma BasketReadsBack(x: Ix, k: Basket)
    requires PayloadFits(x.data) && |x.accounts| == 6 + x.data[32] * 3
    ensures var b := WithGives(x, WithWants(HeaderImage(k), x.data, 0), 0);
            && ReadBasket(b) == k
            && (forall j :: 0 <= j < x.data[32] ==> GiveEntry(b, j) == Entry(PaidLeg(x, j).mint, PaidLeg(x, j).amount))
            && (forall j :: 0 <= j < x.data[33] ==>
                WantEntry(b, j) == Entry(KeyAt(WantSlice(x.data, j), 0), U64At(WantSlice(x.data, j), 32)))
  {
    hide ReadBasket, GiveEntry, WantEntry, HeaderImage;
    HeaderReadsBack(k);
    WantsReadBack(HeaderImage(k), x.data, 0);
    GivesReadBack(x, WithWants(HeaderImage(k), x.data, 0), 0);
  }

  lemma LockLegRecord(e: Env, x: Ix, r: map<Key, seq<byte>>, k: Key, b: seq<byte>, i: nat)
    requires PayloadFits(x.data) && |x.accounts| == 6 + x.data[32] * 3 && |b| == BASKET_LEN && i < x.data[32]
    ensures RecordsAfter(r, LockLeg(e, x, k, b, i)) == r[k := WithGive(x, b, i)]
  {
    hide WithGive, NotWanted, IsLegVault, GiveAmount;
    var ops := LockLeg(e, x, k, b, i);
    var last := [Write(k, WithGive(x, b, i))];
    assert ops == ops[..6] + last;
    RecordsAfterSplit(r, ops[..6], last);
    assert AllConfined(ops[..6], {x.accounts[0]}, {});
    NoRecordEffects(r, ops[..6], {x.accounts[0]});
    assert last[1..] == [];
  }

  lemma {:induction false} LockRecord(e: Env, x: Ix, r: map<Key, seq<byte>>, k: Key, b: seq<byte>, i: nat)
    requires PayloadFits(x.data) && |x.accounts| == 6 + x.data[32] * 3 && |b| == BASKET_LEN && i <= x.data[32]
    requires k in r && r[k] == b
    ensures RecordsAfter(r, LockOps(e, x, k, b, i)) == r[k := WithGives(x, b, i)]
    decreases x.data[32] - i
  {
    hide LockLeg, WithGive;
    if i < x.data[32] {
      var b' := WithGive(x, b, i);
      LockLegRecord(e, x, r, k, b, i);
      LockRecord(e, x, r[k := b'], k, b', i + 1);
      RecordsAfterSplit(r, LockLeg(e, x, k, b, i), LockOps(e, x, k, b', i + 1));
    }
  }

  /** After its turn a leg's vault is the derived one and holds the paid amount. */
  lemma LockLegHolds(e: Env, signers: set<Key>, w: World, x: Ix, k: Key, b: seq<byte>, i: nat)
    requires PayloadFits(x.data) && |x.accounts| == 6 + x.data[32] * 3 && |b| == BASKET_LEN && i < x.data[32]
    requires Exec(e, signers, w, LockLeg(e, x, k, b, i)).Ok?
    ensures var leg := PaidLeg(x, i);
            && IsLegVault(e, x.accounts[0], KeyAt(x.data, 0), i, leg.vault)
            && Holds(Exec(e, signers, w, LockLeg(e, x, k, b, i)).value.tokens, leg.vault, k, leg.mint, leg.amount)
  {
    hide WithGive, NotWanted, IsLegVault, GiveAmount, Holds;
    var ops := LockLeg(e, x, k, b, i);
    var leg := PaidLeg(x, i);
    var tail := [ops[3], ops[4], ops[5]] + [ops[6]];
    assert ops == [ops[0]] + ([ops[1]] + ([ops[2]] + tail));
    ExecCons(e, signers, w, ops[0], [ops[1]] + ([ops[2]] + tail));
    ExecCons(e, signers, w, ops[1], [ops[2]] + tail);
    ExecCons(e, signers, w, ops[2], tail);
    FundedVault(e, signers, w, leg.vault, leg.mint, k, ops[4], x.accounts[6 + i * 3 + 2], Signer(x.accounts[0]),
        leg.amount, [ops[6]]);
  }

  lemma NeverActs(ops: seq<Op>, auths: set<Key>, records: set<Key>, k: Key)
    requires AllConfined(ops, auths, records) && k !in auths
    ensures Spares(ops, k)
  {
    forall i | 0 <= i < |ops|
      ensures !ActsAs(ops[i], k)
    {
      assert ops[i] in ops && Confined(ops[i], auths, records);
    }
  }

  /** When the loop is done every leg from i on is held by the basket. */
  lemma {:induction false} LockHolds(e: Env, signers: set<Key>, w: World, x: Ix, k: Key, b: seq<byte>, i: nat)
    requires PayloadFits(x.data) && |x.accounts| == 6 + x.data[32] * 3 && |b| == BASKET_LEN && i <= x.data[32]
    requires k != x.accounts[0] && Exec(e, signers, w, LockOps(e, x, k, b, i)).Ok?
    ensures forall j :: i <= j < x.data[32] ==>
              var leg := PaidLeg(x, j);
              && IsLegVault(e, x.accounts[0], KeyAt(x.data, 0), j, leg.vault)
              && Holds(Exec(e, signers, w, LockOps(e, x, k, b, i)).value.tokens, leg.vault, k, leg.mint, leg.amount)
    decreases x.data[32] - i
  {
    hide LockLeg, WithGive, IsLegVault, PaidLeg, Holds, Apply;
    if i < x.data[32] {
      var rest := LockOps(e, x, k, WithGive(x, b, i), i + 1);
      ExecSplit(e, signers, w, LockLeg(e, x, k, b, i), rest);
      var w1 := Exec(e, signers, w, LockLeg(e, x, k, b, i)).value;
      LockLegHolds(e, signers, w, x, k, b, i);
      LockHolds(e, signers, w1, x, k, WithGive(x, b, i), i + 1);
      LockConfined(e, x, k, WithGive(x, b, i), i + 1);
      NeverActs(rest, {x.accounts[0]}, {k}, k);
      ExecKeepsHolding(e, signers, w1, rest, PaidLeg(x, i).vault, k, PaidLeg(x, i).mint, PaidLeg(x, i).amount);
    }
  }

  lemma {:induction false} ChecksChangeNothing(e: Env, signers: set<Key>, w: World, ops: seq<Op>)
    requires (forall op :: op in ops ==> op.Check?) && Exec(e, signers, w, ops).Ok?
    ensures Exec(e, signers, w, ops) == Ok(w)
    decreases |ops|
  {
    if ops != [] {
      ChecksChangeNothing(e, signers, w, ops[1..]);
    }
  }

  lemma {:induction false} WantChecksAreChecks(d: seq<byte>, j: nat)
    requires PayloadFits(d) && j <= d[33]
    ensures forall op :: op in WantChecks(d, j) ==> op.Check?
    decreases d[33] - j
  {
    if j < d[33] {
      WantChecksAreChecks(d, j + 1);
    }
  }

  lemma {:induction false} LockNeverWipes(e: Env, x: Ix, k: Key, b: seq<byte>, i: nat)
    requires PayloadFits(x.data) && |x.accounts| == 6 + x.data[32] * 3 && |b| == BASKET_LEN && i <= x.data[32]
    ensures forall op :: op in LockOps(e, x, k, b, i) ==> !op.Wipe?
    decreases x.data[32] - i
  {
    hide WithGive, NotWanted, IsLegVault, GiveAmount;
    if i < x.data[32] {
      LockNeverWipes(e, x, k, WithGive(x, b, i), i + 1);
    }
  }

  /** The state an accepted `open_basket` leaves: one new record with every entry, every vault funded. */
  lemma OpenedBasket(e: Env, x: Ix, w: World, k: Key, b: seq<byte>)
    requires PayloadFits(x.data) && |x.accounts| == 6 + x.data[32] * 3 && |b| == BASKET_LEN && k != x.accounts[0]
    requires Exec(e, x.signers, w, [NewRecord(k, BASKET_LEN)] + WantChecks(x.data, 0) + [Write(k, b)]
        + LockOps(e, x, k, b, 0)).Ok?
    ensures var v := Exec(e, x.signers, w, [NewRecord(k, BASKET_LEN)] + WantChecks(x.data, 0) + [Write(k, b)]
        + LockOps(e, x, k, b, 0)).value;
            && k !in w.records
            && v.records == w.records[k := WithGives(x, b, 0)] && v.drained == w.drained
            && forall j :: 0 <= j < x.data[32] ==>
                 var leg := PaidLeg(x, j);
                 IsLegVault(e, x.accounts[0], KeyAt(x.data, 0), j, leg.vault)
                     && Holds(v.tokens, leg.vault, k, leg.mint, leg.amount)
  {
    hide LockOps, WantChecks, WithGives, PaidLeg, Holds, IsLegVault;
    var create, checks, write, lock := NewRecord(k, BASKET_LEN), WantChecks(x.data, 0), Write(k, b),
        LockOps(e, x, k, b, 0);
    Regroup([create], checks, [write], lock);
    assert checks + [write] + lock == checks + ([write] + lock);
    ExecCons(e, x.signers, w, create, checks + [write] + lock);
    var w1 := Apply(e, x.signers, w, create).value;
    ExecSplit(e, x.signers, w1, checks, [write] + lock);
    WantChecksAreChecks(x.data, 0);
    ChecksChangeNothing(e, x.signers, w1, checks);
    ExecCons(e, x.signers, w1, write, lock);
    var w2 := Apply(e, x.signers, w1, write).value;
    LockHolds(e, x.signers, w2, x, k, b, 0);
    LockRecord(e, x, w2.records, k, b, 0);
    ExecRecords(e, x.signers, w2, lock);
    LockConfined(e, x, k, b, 0);
    LockNeverWipes(e, x, k, b, 0);
    WipesOnlyWipes(lock);
  }

  lemma BasketRecordOk(e: Env, x: Ix, t: map<Key, Token>, key: Key, k: Basket, b: seq<byte>)
    requires PayloadFits(x.data) && |x.accounts| == 6 + x.data[32] * 3 && |b| == BASKET_LEN && ReadBasket(b) == k
    requires k == HeaderOf(x.data, x.accounts[0], k.bump) && (k.authMode == AUTH_NORMAL || k.authMode == AUTH_BEARER)
    requires k.maker != ZERO && !Derived(e.derive, k.maker)
        && Create(e.derive, BasketSeed(k.maker, k.nonce), k.bump) == Some(key)
    requires forall j :: 0 <= j < x.data[32] ==> GiveEntry(b, j) == Entry(PaidLeg(x, j).mint, PaidLeg(x, j).amount)
    requires forall j :: 0 <= j < x.data[32] ==>
               var leg := PaidLeg(x, j);
               IsLegVault(e, x.accounts[0], KeyAt(x.data, 0), j, leg.vault)
                   && Holds(t, leg.vault, key, leg.mint, leg.amount)
    ensures Live(b) && RecordOk(e, t, key, b)
  {
    hide Holds, PaidLeg, GiveEntry;
    assert IsHome(e, key, BASKET_LEN, BasketSeed(k.maker, k.nonce), k.bump);
    assert KeyAt(b, 0) == k.maker;
    forall j | 0 <= j < x.data[32]
      ensures BasketLeg(e, b, j) == PaidLeg(x, j)
    {
      assert IsLegVault(e, x.accounts[0], KeyAt(x.data, 0), j, PaidLeg(x, j).vault);
    }
  }

  lemma BasketOpeningKeepsInv(e: Env, x: Ix, w: World, key: Key, k: Basket, b: seq<byte>)
    requires ValidEnv(e) && ValidIx(e, x) && Inv(e, w) && PayloadFits(x.data) && |x.accounts| == 6 + x.data[32] * 3
    requires x.accounts[0] in x.signers && k == HeaderOf(x.data, x.accounts[0], k.bump)
        && (k.authMode == AUTH_NORMAL || k.authMode == AUTH_BEARER)
    requires Create(e.derive, BasketSeed(k.maker, k.nonce), k.bump) == Some(key)
        && b == WithWants(HeaderImage(k), x.data, 0)
    requires Exec(e, x.signers, w, [NewRecord(key, BASKET_LEN)] + WantChecks(x.data, 0) + [Write(key, b)]
        + LockOps(e, x, key, b, 0)).Ok?
    ensures Inv(e, Exec(e, x.signers, w, [NewRecord(key, BASKET_LEN)] + WantChecks(x.data, 0) + [Write(key, b)]
        + LockOps(e, x, key, b, 0)).value)
  {
    hide WithWants, LockOps, WantChecks, WithGives, RecordOk, HeaderImage, Holds;
    var ops := [NewRecord(key, BASKET_LEN)] + WantChecks(x.data, 0) + [Write(key, b)] + LockOps(e, x, key, b, 0);
    OpenedBasket(e, x, w, key, b);
    BasketReadsBack(x, k);
    BasketRecordOk(e, x, Exec(e, x.signers, w, ops).value.tokens, key, k, WithGives(x, b, 0));
    WantChecksConfined(x.data, 0);
    LockConfined(e, x, key, b, 0);
    Join(WantChecks(x.data, 0), [Write(key, b)], {}, {}, {x.accounts[0]}, {key});
    Regroup([NewRecord(key, BASKET_LEN)], WantChecks(x.data, 0), [Write(key, b)], LockOps(e, x, key, b, 0));
    Join(WantChecks(x.data, 0) + [Write(key, b)], LockOps(e, x, key, b, 0), {x.accounts[0]}, {key}, {x.accounts[0]},
        {key});
    Join([NewRecord(key, BASKET_LEN)], WantChecks(x.data, 0) + [Write(key, b)] + LockOps(e, x, key, b, 0), {}, {key},
        {x.accounts[0]}, {key});
    SignersHoldNoRecord(e, x, w, x.accounts[0]);
    ConfinedKeepsInv(e, x, w, ops, {x.accounts[0]}, {key});
  }

  lemma OpenBasketKeepsInv(e: Env, x: Ix, w: World)
    requires ValidEnv(e) && ValidIx(e, x) && Inv(e, w) && Run(e, w, x, Baskets.OpenBasket(e, w, x)).Ok?
    ensures Inv(e, Run(e, w, x, Baskets.OpenBasket(e, w, x)).value)
  {
    hide Baskets.OpenBasket, WithWants, LockOps, WantChecks, WithGives, Inv, Exec, HeaderImage;
    var k, b := OpenBasketShape(e, x, w);
    BasketOpeningKeepsInv(e, x, w, x.accounts[1], k, b);
  }
}
