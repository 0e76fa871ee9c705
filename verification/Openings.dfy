/** What opening a record locks and records: the payload's terms, byte for byte, and exactly the amounts it names. */
module Openings {
  import opened Prelude
  import opened Bytes
  import opened Seeds
  import opened Layout
  import opened Ledger
  import opened FeeConfig
  import opened Payments
  import opened Machine
  import opened Shapes
  import opened Invariant
  import opened BasketInvariant
  import opened Effects
  import opened BasketEffects
  import Swaps
  import Offers
  import Baskets
  import Listings

  /** The record holds these bytes, a new vault of the record holds the amount, and nothing else moved. */
  ghost predicate Locked(w: World, v: World, record: Key, image: seq<byte>, vault: Key, mint: Key, src: Key,
      maker: Key, amount: nat) {
    && record !in w.records && v.records == w.records[record := image]
    && vault !in w.tokens && Holds(v.tokens, vault, record, mint, amount)
    && v.log == w.log + [Move(src, mint, vault, maker, amount)]
  }

  lemma OpeningLocks(e: Env, signers: set<Key>, w: World, k: Key, vault: Key, mint: Key, checked: Op, src: Key,
      maker: Key, amount: nat, image: seq<byte>)
    requires checked.Check? && amount > 0 && Exec(e, signers, w,
        OpeningOps(k, vault, mint, checked, src, maker, amount, image)).Ok?
    ensures Locked(w, Exec(e, signers, w, OpeningOps(k, vault, mint, checked, src, maker, amount, image)).value, k,
        image, vault, mint, src, maker, amount)
  {
    var ops := OpeningOps(k, vault, mint, checked, src, maker, amount, image);
    OpenedWorld(e, signers, w, k, vault, mint, checked, src, maker, amount, image);
    ExecRecords(e, signers, w, ops);
    var head, move, tail := [ops[0], ops[1], ops[2]], [ops[3]], [ops[4]];
    assert ops == head + (move + tail);
    MovesSplit(head, move + tail);
    MovesSplit(move, tail);
    NoTransfersNoMoves(head);
    NoTransfersNoMoves(tail);
    OneMove(ops[3]);
    assert ops == [ops[0]] + ([ops[1]] + [ops[2], ops[3], ops[4]]);
    ExecCons(e, signers, w, ops[0], [ops[1]] + [ops[2], ops[3], ops[4]]);
    ExecCons(e, signers, Apply(e, signers, w, ops[0]).value, ops[1], [ops[2], ops[3], ops[4]]);
  }

  /** `open_swap`: the payload's terms are recorded and read back, exactly the give amount enters the vault. */
  lemma OpenSwapLocks(e: Env, w: World, x: Ix) returns (s: Swap)
    requires Run(e, w, x, Swaps.OpenSwap(e, w, x)).Ok?
    ensures |x.data| == 120 && |x.accounts| == 10 && x.accounts[0] in x.signers
    ensures s == Swap(x.accounts[0], x.accounts[3], U64At(x.data, 32), x.accounts[4], U64At(x.data, 40),
        KeyAt(x.data, 88), KeyAt(x.data, 48), I64At(x.data, 80),
                      STATUS_OPEN, s.bump, KeyAt(x.data, 0), ROYALTY_NONE, 0)
    ensures ReadSwap(SwapImage(s)) == s
    ensures Locked(w, Run(e, w, x, Swaps.OpenSwap(e, w, x)).value, x.accounts[1], SwapImage(s), x.accounts[2],
        s.giveMint, x.accounts[5], s.maker, s.giveAmount)
  {
    hide Swaps.OpenSwap, Exec, SwapImage, ReadSwap, U64At, I64At;
    s := OpenSwapShape(e, x, w);
    SwapReadsBack(s);
    var a := x.accounts;
    OpeningLocks(e, x.signers, w, a[1], a[2], s.giveMint, Check(s.giveMint in e.mints, InvalidAccountData), a[5],
        s.maker, s.giveAmount, SwapImage(s));
  }

  /** `make_offer`: the goods are those the listing shows, the bid is the payload's, and it enters the vault. */
  lemma MakeOfferLocks(e: Env, w: World, x: Ix) returns (o: Offer, s: Swap)
    requires Run(e, w, x, Offers.MakeOffer(e, w, x)).Ok?
    ensures |x.data| == 48 && |x.accounts| == 10 && x.accounts[0] in x.signers
    ensures x.accounts[4] in w.records && |w.records[x.accounts[4]]| == SWAP_LEN
        && s == ReadSwap(w.records[x.accounts[4]]) && s.wantMint == x.accounts[3]
    ensures o == Offer(x.accounts[0], x.accounts[4], x.accounts[3], U64At(x.data, 32), s.giveMint, s.giveAmount,
        I64At(x.data, 40), STATUS_OPEN, o.bump, KeyAt(x.data, 0))
    ensures ReadOffer(OfferImage(o)) == o
    ensures Locked(w, Run(e, w, x, Offers.MakeOffer(e, w, x)).value, x.accounts[1], OfferImage(o), x.accounts[2],
        o.wantMint, x.accounts[5], o.offerer, o.wantAmount)
  {
    hide Offers.MakeOffer, Exec, OfferImage, ReadOffer, ReadSwap, U64At, I64At;
    o, s := MakeOfferShape(e, x, w);
    OfferReadsBack(o);
    var a := x.accounts;
    OpeningLocks(e, x.signers, w, a[1], a[2], o.wantMint, Check(o.wantMint in e.mints, InvalidAccountData), a[5],
        o.offerer, o.wantAmount, OfferImage(o));
  }

  /** `list`: the payload's terms are recorded; the listing address becomes the delegate of the maker's account for
      exactly the give amount, and no token moves. */
  lemma ListDelegates(e: Env, w: World, x: Ix) returns (s: Swap)
    requires Run(e, w, x, Listings.List(e, w, x)).Ok?
    ensures |x.data| == 122 && |x.accounts| == 9 && x.accounts[0] in x.signers
    ensures s == Swap(x.accounts[0], x.accounts[2], U64At(x.data, 32), x.accounts[3], U64At(x.data, 40),
        KeyAt(x.data, 88), KeyAt(x.data, 48), I64At(x.data, 80),
                      STATUS_OPEN, s.bump, KeyAt(x.data, 0), x.data[120], x.data[121])
    ensures ReadSwap(ListingImage(s)) == s && IsTokenAccount(w, x.accounts[4], s.giveMint, s.maker)
    ensures var v, src := Run(e, w, x, Listings.List(e, w, x)).value, x.accounts[4];
            && x.accounts[1] !in w.records && v.records == w.records[x.accounts[1] := ListingImage(s)] && v.log == w.log
            && v.tokens == w.tokens[src := w.tokens[src].(delegate := Some(x.accounts[1]), allowance := s.giveAmount)]
  {
    hide Listings.List, ListingImage, ReadSwap, U64At, I64At;
    s := ListShape(e, x, w);
    ListingReadsBack(s);
    var create, approve, write := NewRecord(x.accounts[1], SWAP_LEN),
        Approve(x.accounts[4], x.accounts[1], Signer(s.maker), s.giveAmount), Write(x.accounts[1], ListingImage(s));
    assert Listings.List(e, w, x).value == [create] + ([approve] + ([write] + []));
    ExecCons(e, x.signers, w, create, [approve] + ([write] + []));
    var u := Apply(e, x.signers, w, create).value;
    ExecCons(e, x.signers, u, approve, [write] + []);
    ExecCons(e, x.signers, Apply(e, x.signers, u, approve).value, write, []);
  }

  /** `cancel_listing`: signed by the maker, clears the delegate of the maker's account, and no token moves. */
  lemma CancelListingRevokes(e: Env, w: World, x: Ix)
    requires Run(e, w, x, Listings.CancelListing(e, w, x)).Ok?
    ensures |x.accounts| == 8 && x.accounts[0] in x.signers && x.accounts[3] in w.tokens
        && w.tokens[x.accounts[3]].owner == x.accounts[0]
    ensures var v, src := Run(e, w, x, Listings.CancelListing(e, w, x)).value, x.accounts[3];
            v.tokens == w.tokens[src := w.tokens[src].(delegate := None, allowance := 0)] && v.log == w.log
  {
    hide Listings.CancelListing, ReadSwap;
    var s := CancelListingShape(e, x, w);
    var revoke, wipe := Revoke(x.accounts[3], Signer(s.maker)), Wipe(x.accounts[1]);
    assert Listings.CancelListing(e, w, x).value == [revoke] + ([wipe] + []);
    ExecCons(e, x.signers, w, revoke, [wipe] + []);
    ExecCons(e, x.signers, Apply(e, x.signers, w, revoke).value, wipe, []);
  }

  // ---- baskets ----

  /** One transfer for every leg from i on, from the maker's account into the leg's vault. */
  function LockMoves(x: Ix, i: nat): seq<Move>
    requires Baskets.PayloadFits(x.data) && |x.accounts| == 6 + x.data[32] * 3 && i <= x.data[32]
    decreases x.data[32] - i
  {
    if i == x.data[32] then [] else
    [Move(x.accounts[6 + i * 3 + 2], x.accounts[6 + i * 3], x.accounts[6 + i * 3 + 1], x.accounts[0],
        Baskets.GiveAmount(x.data, i))] + LockMoves(x, i + 1)
  }

  lemma SevenOpsOneMove(a: Op, b: Op, c: Op, d: Op, f: Op, move: Op, g: Op)
    requires !a.Transfer? && !b.Transfer? && !c.Transfer? && !d.Transfer? && !f.Transfer? && !g.Transfer?
    ensures Moves([a, b, c, d, f, move, g]) == MoveOf(move)
  {
    var head := [a, b, c, d, f];
    assert [a, b, c, d, f, move, g] == head + ([move] + [g]);
    MovesSplit(head, [move] + [g]);
    MovesSplit([move], [g]);
    NoTransfersNoMoves(head);
    OneMove(move);
    OneMove(g);
  }

  lemma LockLegMoves(e: Env, x: Ix, k: Key, b: seq<byte>, i: nat)
    requires Baskets.PayloadFits(x.data) && |x.accounts| == 6 + x.data[32] * 3 && |b| == BASKET_LEN && i < x.data[32]
    ensures Moves(Baskets.LockLeg(e, x, k, b, i)) ==
            [Move(x.accounts[6 + i * 3 + 2], x.accounts[6 + i * 3], x.accounts[6 + i * 3 + 1], x.accounts[0],
                Baskets.GiveAmount(x.data, i))]
  {
    hide Baskets.WithGive, Baskets.NotWanted, Baskets.IsLegVault, Baskets.GiveAmount, Moves;
    var o := Baskets.LockLeg(e, x, k, b, i);
    assert o == [o[0], o[1], o[2], o[3], o[4], o[5], o[6]];
    SevenOpsOneMove(o[0], o[1], o[2], o[3], o[4], o[5], o[6]);
  }

  lemma {:induction false} LockOpsMoves(e: Env, x: Ix, k: Key, b: seq<byte>, i: nat)
    requires Baskets.PayloadFits(x.data) && |x.accounts| == 6 + x.data[32] * 3 && |b| == BASKET_LEN && i <= x.data[32]
    ensures Moves(Baskets.LockOps(e, x, k, b, i)) == LockMoves(x, i)
    decreases x.data[32] - i
  {
    hide Baskets.LockLeg, Baskets.WithGive, Baskets.GiveAmount, Moves;
    if i < x.data[32] {
      LockLegMoves(e, x, k, b, i);
      LockOpsMoves(e, x, k, Baskets.WithGive(x, b, i), i + 1);
      MovesSplit(Baskets.LockLeg(e, x, k, b, i), Baskets.LockOps(e, x, k, Baskets.WithGive(x, b, i), i + 1));
    } else {
      NoOps();
    }
  }

  /** Leg j as recorded: the mint and the amount paid, in the derived vault, held by the basket. */
  ghost predicate LegLocked(e: Env, v: World, x: Ix, basket: Key, b: seq<byte>, j: nat)
    requires Baskets.PayloadFits(x.data) && |x.accounts| == 6 + x.data[32] * 3 && |b| == BASKET_LEN && j < x.data[32]
  {
    var leg := PaidLeg(x, j);
    && GiveEntry(b, j) == Entry(leg.mint, leg.amount)
    && Baskets.IsLegVault(e, x.accounts[0], KeyAt(x.data, 0), j, leg.vault)
    && Holds(v.tokens, leg.vault, basket, leg.mint, leg.amount)
  }

  lemma BasketOpeningMoves(e: Env, x: Ix, w: World, k: Key, b: seq<byte>)
    requires Baskets.PayloadFits(x.data) && |x.accounts| == 6 + x.data[32] * 3 && |b| == BASKET_LEN
    requires Exec(e, x.signers, w, [NewRecord(k, BASKET_LEN)] + Baskets.WantChecks(x.data, 0) + [Write(k, b)]
        + Baskets.LockOps(e, x, k, b, 0)).Ok?
    ensures Exec(e, x.signers, w, [NewRecord(k, BASKET_LEN)] + Baskets.WantChecks(x.data, 0) + [Write(k, b)]
        + Baskets.LockOps(e, x, k, b, 0)).value.log == w.log + LockMoves(x, 0)
  {
    hide Exec, Baskets.WantChecks, Baskets.LockOps, Moves;
    var head := [NewRecord(k, BASKET_LEN)] + Baskets.WantChecks(x.data, 0) + [Write(k, b)];
    WantChecksAreChecks(x.data, 0);
    ExecRecords(e, x.signers, w, head + Baskets.LockOps(e, x, k, b, 0));
    MovesSplit(head, Baskets.LockOps(e, x, k, b, 0));
    NoTransfersNoMoves(head);
    LockOpsMoves(e, x, k, b, 0);
  }

  /** `open_basket`, for every give and want count: the header, every want entry and every give entry are recorded
      as the payload and the accounts name them, and each leg's amount, and nothing more, enters its own vault. */
  lemma OpenBasketLocks(e: Env, w: World, x: Ix) returns (k: Basket, b: seq<byte>)
    requires ValidEnv(e) && ValidIx(e, x) && Inv(e, w) && Run(e, w, x, Baskets.OpenBasket(e, w, x)).Ok?
    ensures Baskets.PayloadFits(x.data) && |x.accounts| == 6 + x.data[32] * 3 && x.accounts[0] in x.signers
    ensures |b| == BASKET_LEN && ReadBasket(b) == k == Baskets.HeaderOf(x.data, x.accounts[0], k.bump)
    ensures x.accounts[1] !in w.records && Run(e, w, x, Baskets.OpenBasket(e, w, x)).value.records
        == w.records[x.accounts[1] := b]
    ensures forall j :: 0 <= j < x.data[33] ==>
        WantEntry(b, j) == Entry(KeyAt(Baskets.WantSlice(x.data, j), 0), U64At(Baskets.WantSlice(x.data, j), 32))
    ensures forall j :: 0 <= j < x.data[32] ==> LegLocked(e, Run(e, w, x, Baskets.OpenBasket(e, w, x)).value, x,
        x.accounts[1], b, j)
    ensures Run(e, w, x, Baskets.OpenBasket(e, w, x)).value.log == w.log + LockMoves(x, 0)
  {
    hide Baskets.OpenBasket, Inv, Exec, Baskets.WithWants, Baskets.LockOps, Baskets.WantChecks, WithGives, HeaderImage,
        ReadBasket, PaidLeg, Holds,
         GiveEntry, WantEntry, Baskets.IsLegVault, Moves, LockMoves, Baskets.WantSlice;
    var b0;
    k, b0 := OpenBasketShape(e, x, w);
    b := WithGives(x, b0, 0);
    SignersHoldNoRecord(e, x, w, x.accounts[0]);
    assert Derived(e.derive, x.accounts[1]);
    OpenedBasket(e, x, w, x.accounts[1], b0);
    BasketReadsBack(x, k);
    BasketOpeningMoves(e, x, w, x.accounts[1], b0);
  }

  /** A listing's price is within the taker's cap. */
  lemma ListingWithinCap(e: Env, w: World, x: Ix, s: Swap)
    requires |x.data| == 48 && |x.accounts| >= 12 && (s.royaltyMode != ROYALTY_NONE ==> |x.accounts| >= 14)
        && ListingRoyalty(e, w, x, s).Ok?
    ensures s.wantAmount <= U64At(x.data, 40)
  {
    hide RoyaltyOps, Bill, U64At, ReadConfig, RoyaltyLeg, FeeLeg, CreatorsMatch;
    var a, none := x.accounts, s.royaltyMode == ROYALTY_NONE;
    var c, bill := RoyaltyShape(e, w, a[10], a[7], s.wantMint, a[11], a[8], a[0], s.wantAmount, U64At(x.data, 40),
        x.data[0], s.royaltyMode, s.makerPct,
                                if none then None else Some(x.metadata), if none then [] else a[14..]);
  }
}
