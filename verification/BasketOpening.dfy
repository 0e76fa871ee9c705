/** When open_basket is accepted (tag 12), in terms of payload bytes, record bytes and token accounts alone. */
module BasketOpening {
  import opened Prelude
  import opened Bytes
  import opened Seeds
  import opened Layout
  import opened Ledger
  import opened FeeConfig
  import opened Machine
  import opened Shapes
  import opened BasketInvariant
  import opened Carry
  import opened Admission
  import Baskets
  import Consent

  // ---- the payload ----

  /** nonce (32), give count, want count, give amounts (8 each), want entries (40 each), expiry (8), taker (32), mode,
      claim hash (32). */
  predicate BasketPayload(d: seq<byte>) {
    && |d| >= 34
    && var gives: nat, wants: nat := d[32], d[33];
       1 <= gives <= 5 && wants <= 5 && |d| == 34 + gives * 8 + wants * 40 + 73
  }

  /** Where want entry j begins: a mint and an amount. */
  function WantFrom(d: seq<byte>, j: nat): (o: nat)
    requires BasketPayload(d) && j <= d[33]
    ensures o + 73 + (d[33] as int - j) * 40 == |d|
  {
    var gives: nat := d[32];
    34 + gives * 8 + j * 40
  }

  /** Where the tail begins: expiry, taker, mode and claim hash, in this order. */
  function Tail(d: seq<byte>): (o: nat)
    requires BasketPayload(d)
    ensures |d| == o + 73
  {
    WantFrom(d, d[33])
  }

  predicate BasketTerms(e: Env, w: World, x: Ix) {
    var d, a := x.data, x.accounts;
    && BasketPayload(d)
    && var o := Tail(d);
       && (d[o + 40] == 0 || (d[o + 40] == 1 && d[33] == 0 && d[o + 41..o + 73] != ZERO))
       && w.now < I64At(d, o) && |a| == 6 + d[32] * 3 && a[0] in x.signers
       && AliasShown(e, w, x, a[4]) && At(e, BasketSeed(a[0], KeyAt(d, 0)), a[1])
  }

  /** Every want entry asks something. */
  predicate WantsPositive(d: seq<byte>, j: nat)
    requires BasketPayload(d)
  {
    forall k :: j <= k < d[33] ==> U64At(d, WantFrom(d, k) + 32) > 0
  }

  /** Give leg i: a positive amount of a mint that no want entry names, and a new vault at the address of (maker, nonce,
      i). */
  predicate LegLockable(e: Env, w: World, x: Ix, i: nat)
    requires BasketPayload(x.data) && |x.accounts| == 6 + x.data[32] * 3 && i < x.data[32]
  {
    var d, a, at := x.data, x.accounts, 6 + i * 3;
    && U64At(d, 34 + i * 8) > 0 && a[at] in e.mints
    && (forall j :: 0 <= j < d[33] ==> KeyAt(d, WantFrom(d, j)) != a[at])
    && At(e, BVaultSeed(a[0], KeyAt(d, 0), i), a[at + 1]) && a[at + 1] !in w.records && a[at + 1] != a[1]
  }

  predicate LegsLockable(e: Env, w: World, x: Ix, i: nat)
    requires BasketPayload(x.data) && |x.accounts| == 6 + x.data[32] * 3
  {
    forall k :: i <= k < x.data[32] ==> LegLockable(e, w, x, k)
  }

  /** Each leg's vault begins, owned by the basket, and receives the leg's amount, in order, from leg i on. */
  function LockTouches(x: Ix, i: nat): seq<Touch>
    requires BasketPayload(x.data) && |x.accounts| == 6 + x.data[32] * 3 && i <= x.data[32]
    decreases x.data[32] - i
  {
    if i == x.data[32] then [] else
    var a, at := x.accounts, 6 + i * 3;
    [Begin(a[at + 1], a[at], a[1]), Pay(a[at + 2], a[at], a[at + 1], a[0], U64At(x.data, 34 + i * 8))]
    + LockTouches(x, i + 1)
  }

  lemma PayloadMeans(d: seq<byte>)
    ensures Baskets.PayloadFits(d) <==> BasketPayload(d)
    ensures BasketPayload(d) ==> d[32] <= 5 && d[33] <= 5 && Baskets.TailOffset(d[32], d[33]) == Tail(d)
  {
  }

  lemma BasketGates(e: Env, w: World, x: Ix)
    ensures Baskets.OpenBasket(e, w, x).Ok? <==> BasketTerms(e, w, x)
  {
    hide Find, RequireAlias, AliasShown, HeaderImage, Baskets.WithWants, Baskets.WantChecks, Baskets.LockOps,
        Baskets.PayloadFits, BasketPayload;
    PayloadMeans(x.data);
    if |x.accounts| > 4 {
      AliasGateMeans(e, w, x, x.accounts[4]);
    }
  }

  /** A want entry of the payload: the mint, then the amount. */
  lemma WantSliceReads(d: seq<byte>, j: nat)
    requires Baskets.PayloadFits(d) && BasketPayload(d) && j < d[33]
    ensures var o := WantFrom(d, j);
            KeyAt(Baskets.WantSlice(d, j), 0) == KeyAt(d, o) && U64At(Baskets.WantSlice(d, j), 32) == U64At(d, o + 32)
  {
    hide U64Of;
    var o, s := WantFrom(d, j), Baskets.WantSlice(d, j);
    assert s[0..32] == d[o..o + 32] && s[32..40] == d[o + 32..o + 40];
  }

  lemma {:induction false} WantChecksAsk(e: Env, signers: set<Key>, r: map<Key, seq<byte>>, d: seq<byte>, j: nat)
    requires Baskets.PayloadFits(d) && BasketPayload(d) && j <= d[33]
    ensures var ops := Baskets.WantChecks(d, j);
            && (forall op :: op in ops ==> !op.NewRecord?) && Touches(ops) == []
            && (AllSound(e, signers, r, ops) <==> WantsPositive(d, j))
    decreases d[33] - j
  {
    hide AllSound, Touches, Baskets.WantSlice, U64At, Baskets.PayloadFits, BasketPayload, WantFrom;
    PayloadMeans(d);
    if j == d[33] {
      Nil(e, signers, r);
    } else {
      var o := WantFrom(d, j);
      var test := Check(U64At(Baskets.WantSlice(d, j), 32) != 0, InvalidInstructionData);
      WantChecksAsk(e, signers, r, d, j + 1);
      Cons(e, signers, r, test, Baskets.WantChecks(d, j + 1));
      WantSliceReads(d, j);
      assert WantsPositive(d, j) <==> (U64At(d, o + 32) > 0 && WantsPositive(d, j + 1));
    }
  }

  /** The record names the payload's want mints while the legs are locked. */
  predicate WantsNamed(b: seq<byte>, d: seq<byte>)
    requires BasketPayload(d)
  {
    |b| == 541 && forall j :: 0 <= j < d[33] ==> WantEntry(b, j).mint == KeyAt(d, WantFrom(d, j))
  }

  lemma NamedSize(b: seq<byte>, d: seq<byte>)
    requires BasketPayload(d) && WantsNamed(b, d)
    ensures |b| == BASKET_LEN
  {
  }

  lemma WantsStayNamed(x: Ix, b: seq<byte>, i: nat)
    requires Baskets.PayloadFits(x.data) && BasketPayload(x.data) && |x.accounts| == 6 + x.data[32] * 3
    requires i < x.data[32] && WantsNamed(b, x.data)
    ensures WantsNamed(Baskets.WithGive(x, b, i), x.data)
  {
    hide PutGive, WantEntry;
    PutGiveReadsBack(b, i, x.accounts[6 + i * 3], Baskets.GiveAmount(x.data, i));
  }

  lemma SevenAsk(e: Env, signers: set<Key>, r: map<Key, seq<byte>>, one: Op, two: Op, three: Op, begin: Op, four: Op,
      pay: Op, write: Op)
    requires one.Check? && two.Check? && three.Check? && begin.NewToken? && four.Check? && pay.Transfer? && write.Write?
    ensures var ops := [one, two, three, begin, four, pay, write];
            && (forall op :: op in ops ==> !op.NewRecord?)
            && (AllSound(e, signers, r, ops) <==>
                  && one.ok && two.ok && three.ok && four.ok && Sound(e, signers, r, begin) && Sound(e, signers, r, pay)
                  && Sound(e, signers, r, write))
            && Touches(ops) == TouchOf(begin) + TouchOf(pay)
  {
    hide AllSound, Touches, Signed;
    var tail := [four] + ([pay] + ([write] + []));
    assert [one, two, three, begin, four, pay, write] == [one] + ([two] + ([three] + ([begin] + tail)));
    Cons(e, signers, r, one, [two] + ([three] + ([begin] + tail)));
    Cons(e, signers, r, two, [three] + ([begin] + tail));
    Cons(e, signers, r, three, [begin] + tail);
    Cons(e, signers, r, begin, tail);
    Cons(e, signers, r, four, [pay] + ([write] + []));
    Cons(e, signers, r, pay, [write] + []);
    Cons(e, signers, r, write, []);
    Nil(e, signers, r);
  }

  lemma NotWantedMeans(b: seq<byte>, d: seq<byte>, mint: Key)
    requires BasketPayload(d) && WantsNamed(b, d)
    ensures Baskets.NotWanted(b, d[33], mint) <==>
            forall j :: 0 <= j < d[33] ==> KeyAt(d, WantFrom(d, j)) != mint
  {
    hide WantEntry;
    if Baskets.NotWanted(b, d[33], mint) {
      forall j | 0 <= j < d[33]
        ensures KeyAt(d, WantFrom(d, j)) != mint
      {
        assert WantEntry(b, j).mint != mint;
      }
    }
  }

  lemma LegVaultMeans(e: Env, maker: Key, nonce: Key, i: nat, vault: Key)
    requires i < 5
    ensures Baskets.IsLegVault(e, maker, nonce, i, vault) <==> At(e, BVaultSeed(maker, nonce, i), vault)
  {
    hide Find;
  }

  lemma LockLegAsks(e: Env, w: World, x: Ix, b: seq<byte>, i: nat)
    requires Baskets.PayloadFits(x.data) && BasketPayload(x.data) && |x.accounts| == 6 + x.data[32] * 3
    requires i < x.data[32] && WantsNamed(b, x.data) && x.accounts[0] in x.signers
    ensures var ops, r := Baskets.LockLeg(e, x, x.accounts[1], b, i), w.records[x.accounts[1] := Zeros(BASKET_LEN)];
            && (forall op :: op in ops ==> !op.NewRecord?)
            && (AllSound(e, x.signers, r, ops) <==> LegLockable(e, w, x, i))
            && var a, at := x.accounts, 6 + i * 3;
               Touches(ops) == [Begin(a[at + 1], a[at], a[1]),
                   Pay(a[at + 2], a[at], a[at + 1], a[0], U64At(x.data, 34 + i * 8))]
  {
    hide AllSound, Touches, Find, WantsNamed, Baskets.WithGive, U64Of, Baskets.NotWanted, Baskets.IsLegVault, At,
        Baskets.PayloadFits, BasketPayload;
    assert |b| == BASKET_LEN by { NamedSize(b, x.data); }
    PayloadMeans(x.data);
    LegVaultMeans(e, x.accounts[0], KeyAt(x.data, 0), i, x.accounts[6 + i * 3 + 1]);
    var k, r := x.accounts[1], w.records[x.accounts[1] := Zeros(BASKET_LEN)];
    var ops := Baskets.LockLeg(e, x, k, b, i);
    assert ops == [ops[0], ops[1], ops[2], ops[3], ops[4], ops[5], ops[6]];
    SevenAsk(e, x.signers, r, ops[0], ops[1], ops[2], ops[3], ops[4], ops[5], ops[6]);
    NotWantedMeans(b, x.data, x.accounts[6 + i * 3]);
  }

  /** The give loop is sound exactly when every leg is lockable, and it asks for one vault and one payment a leg. */
  lemma {:induction false} LocksAsk(e: Env, w: World, x: Ix, b: seq<byte>, i: nat)
    requires Baskets.PayloadFits(x.data) && BasketPayload(x.data) && |x.accounts| == 6 + x.data[32] * 3
    requires i <= x.data[32] && WantsNamed(b, x.data) && x.accounts[0] in x.signers
    ensures var ops, r := Baskets.LockOps(e, x, x.accounts[1], b, i), w.records[x.accounts[1] := Zeros(BASKET_LEN)];
            && (forall op :: op in ops ==> !op.NewRecord?)
            && (AllSound(e, x.signers, r, ops) <==> LegsLockable(e, w, x, i))
            && Touches(ops) == LockTouches(x, i)
    decreases x.data[32] - i
  {
    hide AllSound, Touches, Baskets.LockLeg, LegLockable, WantsNamed, Baskets.WithGive;
    var k, r := x.accounts[1], w.records[x.accounts[1] := Zeros(BASKET_LEN)];
    if i == x.data[32] {
      Nil(e, x.signers, r);
    } else {
      assert |b| == BASKET_LEN by { NamedSize(b, x.data); }
      var next := Baskets.WithGive(x, b, i);
      var leg, rest := Baskets.LockLeg(e, x, k, b, i), Baskets.LockOps(e, x, k, next, i + 1);
      LockLegAsks(e, w, x, b, i);
      WantsStayNamed(x, b, i);
      LocksAsk(e, w, x, next, i + 1);
      BothSound(e, x.signers, r, leg, rest);
      TouchesSplit(leg, rest);
      assert LegsLockable(e, w, x, i) <==> (LegLockable(e, w, x, i) && LegsLockable(e, w, x, i + 1));
    }
  }

  lemma WantsAreNamed(d: seq<byte>, k: Basket)
    requires Baskets.PayloadFits(d) && BasketPayload(d)
    ensures WantsNamed(Baskets.WithWants(HeaderImage(k), d, 0), d)
  {
    hide HeaderImage, WantEntry, Baskets.WithWants, Baskets.WantSlice;
    WantsReadBack(HeaderImage(k), d, 0);
    forall j | 0 <= j < d[33]
      ensures WantEntry(Baskets.WithWants(HeaderImage(k), d, 0), j).mint == KeyAt(d, WantFrom(d, j))
    {
      WantSliceReads(d, j);
    }
  }

  /** open_basket is accepted exactly when its terms hold, the record is new, every want asks something, every give leg
      can be locked, and the token program opens and funds the vaults in turn. */
  lemma OpenBasketAccepted(e: Env, w: World, x: Ix)
    ensures Step(e, w, 12, x).Ok? <==>
            && BasketTerms(e, w, x) && x.accounts[1] !in w.records && x.accounts[1] !in w.tokens
            && WantsPositive(x.data, 0) && LegsLockable(e, w, x, 0) && CarryOut(w.tokens, LockTouches(x, 0)).Some?
    ensures Step(e, w, 12, x).Ok? ==>
            && Some(Step(e, w, 12, x).value.tokens) == CarryOut(w.tokens, LockTouches(x, 0))
            && Step(e, w, 12, x).value.log == w.log + Paid(LockTouches(x, 0))
  {
    hide Baskets.OpenBasket, BasketTerms, WantsPositive, LegsLockable, CarryOut, Exec, Paid, Baskets.WantChecks,
        Baskets.LockOps, AllSound, Touches, LockTouches, Baskets.WithWants, HeaderImage, Baskets.HeaderOf, Create,
        WantsNamed, Baskets.PayloadFits, BasketPayload;
    Consent.PlainPlans(e, w, x);
    BasketGates(e, w, x);
    PayloadMeans(x.data);
    if Baskets.OpenBasket(e, w, x).Ok? {
      var k, b := OpenBasketShape(e, x, w);
      var a, d, r := x.accounts, x.data, w.records[x.accounts[1] := Zeros(BASKET_LEN)];
      var tests, write, locks := Baskets.WantChecks(d, 0), Write(a[1], b), Baskets.LockOps(e, x, a[1], b, 0);
      var rest := tests + ([write] + locks);
      assert Baskets.OpenBasket(e, w, x).value == [NewRecord(a[1], BASKET_LEN)] + rest;
      WantsAreNamed(d, k);
      WantChecksAsk(e, x.signers, r, d, 0);
      LocksAsk(e, w, x, b, 0);
      BothSound(e, x.signers, r, tests, [write] + locks);
      Cons(e, x.signers, r, write, locks);
      TouchesSplit(tests, [write] + locks);
      assert Touches(rest) == LockTouches(x, 0);
      CreateThen(e, x.signers, w, a[1], BASKET_LEN, rest);
    }
  }
}
