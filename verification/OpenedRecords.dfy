/** What the instructions record, byte for byte, at the literal offsets of the account layouts. */
module OpenedRecords {
  import opened Prelude
  import opened Bytes
  import opened Layout
  import opened Ledger
  import opened FeeConfig
  import opened Machine
  import opened Openings
  import opened BasketOpening
  import Baskets
  import Consent
  import Lifecycle
  import Listings
  import Offers
  import Swaps

  /** One new record, and no other record changed. */
  predicate Adds(w: World, v: World, k: Key) {
    k !in w.records && k in v.records && v.records == w.records[k := v.records[k]]
  }

  // ---- swaps and listings ----

  /** maker, give mint, give amount, want mint, want amount, taker, terms, expiry, status, bump, nonce, royalty. */
  predicate SwapBytes(b: seq<byte>, d: seq<byte>, maker: Key, give: Key, want: Key, royalty: seq<byte>)
    requires |d| >= 120
  {
    && |b| == 220
    && b[0..32] == maker && b[32..64] == give && b[64..72] == d[32..40]
    && b[72..104] == want && b[104..112] == d[40..48]
    && b[112..144] == d[88..120] && b[144..176] == d[48..80] && b[176..184] == d[80..88] && b[184] == 0
    && b[186..218] == d[0..32] && b[218..220] == royalty
  }

  lemma SameBytes(s: seq<byte>, t: seq<byte>)
    requires |s| == |t| == 8
    ensures U64Of(s) == U64Of(t) ==> s == t
    ensures I64Of(s) == I64Of(t) ==> s == t
  {
    hide U64Bytes, U64Of, I64Bytes, I64Of;
    NumbersWriteBack(s);
    NumbersWriteBack(t);
  }

  /** A record that reads as these terms holds these bytes. */
  lemma ReadsAsBytes(b: seq<byte>, d: seq<byte>, s: Swap)
    requires |b| == SWAP_LEN && |d| >= 120 && s == ReadSwap(b)
    requires s.giveAmount == U64At(d, 32) && s.wantAmount == U64At(d, 40) && s.expiry == I64At(d, 80)
    requires s.taker == KeyAt(d, 88) && s.terms == KeyAt(d, 48) && s.nonce == KeyAt(d, 0) && s.status == STATUS_OPEN
    ensures SwapBytes(b, d, s.maker, s.giveMint, s.wantMint, [s.royaltyMode, s.makerPct])
  {
    hide U64Of, I64Of;
    SameBytes(b[64..72], d[32..40]);
    SameBytes(b[104..112], d[40..48]);
    SameBytes(b[176..184], d[80..88]);
    assert b[218..220] == [b[218], b[219]];
  }

  /** open_swap records its signer, its mints and every term of its payload. */
  lemma OpenSwapRecords(e: Env, w: World, x: Ix)
    requires Step(e, w, 0, x).Ok?
    ensures |x.data| == 120 && |x.accounts| == 10 && Adds(w, Step(e, w, 0, x).value, x.accounts[1])
    ensures SwapBytes(Step(e, w, 0, x).value.records[x.accounts[1]], x.data, x.accounts[0], x.accounts[3],
        x.accounts[4], [0, 0])
  {
    hide Swaps.OpenSwap, Exec, SwapImage, ReadSwap, U64Bytes, U64At, I64Bytes, I64At, Holds;
    SwapPlans(e, w, x);
    var s := OpenSwapLocks(e, w, x);
    ReadsAsBytes(SwapImage(s), x.data, s);
  }

  /** list records the same, and the two royalty bytes of its payload. */
  lemma ListRecords(e: Env, w: World, x: Ix)
    requires Step(e, w, 26, x).Ok?
    ensures |x.data| == 122 && |x.accounts| == 9 && Adds(w, Step(e, w, 26, x).value, x.accounts[1])
    ensures SwapBytes(Step(e, w, 26, x).value.records[x.accounts[1]], x.data, x.accounts[0], x.accounts[2],
        x.accounts[3], x.data[120..122])
  {
    hide Listings.List, Exec, ListingImage, ReadSwap, U64Bytes, U64At, I64Bytes, I64At;
    SalePlans(e, w, x);
    var s := ListDelegates(e, w, x);
    ReadsAsBytes(ListingImage(s), x.data, s);
    assert x.data[120..122] == [x.data[120], x.data[121]];
  }

  // ---- bids ----

  /** bidder, listing, bid mint, bid, goods as the listing shows them, expiry, status, bump, nonce. */
  predicate BidBytes(b: seq<byte>, d: seq<byte>, bidder: Key, swap: Key, mint: Key, shown: seq<byte>)
    requires |d| == 48 && |shown| == 220
  {
    && |b| == 186
    && b[0..32] == bidder && b[32..64] == swap && b[64..96] == mint && b[96..104] == d[32..40]
    && b[104..136] == shown[32..64] && b[136..144] == shown[64..72]
    && b[144..152] == d[40..48] && b[152] == 0 && b[154..186] == d[0..32]
  }

  lemma ReadsAsBidBytes(b: seq<byte>, d: seq<byte>, shown: seq<byte>, o: Offer)
    requires |b| == OFFER_LEN && |d| == 48 && |shown| == SWAP_LEN && o == ReadOffer(b)
    requires o.wantAmount == U64At(d, 32) && o.expiry == I64At(d, 40) && o.nonce == KeyAt(d, 0)
        && o.status == STATUS_OPEN
    requires o.giveMint == ReadSwap(shown).giveMint && o.giveAmount == ReadSwap(shown).giveAmount
    ensures BidBytes(b, d, o.offerer, o.swap, o.wantMint, shown)
  {
    hide U64Of, I64Of;
    SameBytes(b[96..104], d[32..40]);
    SameBytes(b[136..144], shown[64..72]);
    SameBytes(b[144..152], d[40..48]);
  }

  /** make_offer records its signer, the payload's bid, and the goods as the record it bids on shows them. */
  lemma MakeOfferRecords(e: Env, w: World, x: Ix)
    requires Step(e, w, 4, x).Ok?
    ensures |x.data| == 48 && |x.accounts| == 10 && Adds(w, Step(e, w, 4, x).value, x.accounts[1])
    ensures x.accounts[4] in w.records && |w.records[x.accounts[4]]| == 220
    ensures BidBytes(Step(e, w, 4, x).value.records[x.accounts[1]], x.data, x.accounts[0], x.accounts[4],
        x.accounts[3], w.records[x.accounts[4]])
  {
    hide Offers.MakeOffer, Exec, OfferImage, ReadOffer, ReadSwap, U64Bytes, U64At, I64Bytes, I64At, Holds;
    SwapPlans(e, w, x);
    var o, s := MakeOfferLocks(e, w, x);
    ReadsAsBidBytes(OfferImage(o), x.data, w.records[x.accounts[4]], o);
  }

  // ---- the policy ----

  lemma ConfigImageBytes(admin: Key, d: seq<byte>, bump: byte)
    requires |d| == 75
    ensures var r := ConfigImage(admin, d, bump); r[0..32] == admin && r[32..107] == d
  {
    hide PolicyPut;
    PolicyPutBytes(Put(Zeros(CONFIG_LEN), C_ADMIN, admin), d);
  }

  /** init_config records its signer as admin, and then its 75-byte payload as it is. */
  lemma InitConfigRecords(e: Env, w: World, x: Ix)
    requires ValidEnv(e) && ValidIx(e, x) && Inv(e, w) && Step(e, w, 8, x).Ok?
    ensures |x.data| == 75 && |x.accounts| == 3 && Adds(w, Step(e, w, 8, x).value, x.accounts[1])
    ensures var b := Step(e, w, 8, x).value.records[x.accounts[1]];
            |b| == 108 && b[0..32] == x.accounts[0] && b[32..107] == x.data
  {
    hide InitConfig, Exec, ConfigImage, Inv;
    PolicyPlans(e, w, x);
    var c, b := Lifecycle.InitConfigOpens(e, x, w);
    ConfigImageBytes(x.accounts[0], x.data, c.bump);
  }

  lemma PolicyPutBytes(b: seq<byte>, d: seq<byte>)
    requires |b| == CONFIG_LEN && |d| == 75
    ensures var r := PolicyPut(b, d); r[0..32] == b[0..32] && r[32..107] == d && r[107] == b[107]
  {
    var r := PolicyPut(b, d);
    assert r[106..107] == [d[74]];
    assert r[32..107] == r[32..64] + r[64..66] + r[66..74] + r[74..106] + r[106..107];
    assert d == d[0..32] + d[32..34] + d[34..42] + d[42..74] + [d[74]];
  }

  /** update_config replaces the 75 policy bytes and keeps admin and bump. */
  lemma UpdateConfigRecords(e: Env, w: World, x: Ix)
    requires ValidEnv(e) && ValidIx(e, x) && Inv(e, w) && Step(e, w, 9, x).Ok?
    ensures |x.data| == 75 && |x.accounts| == 2 && x.accounts[1] in w.records && |w.records[x.accounts[1]]| == 108
    ensures var k, v := x.accounts[1], Step(e, w, 9, x).value;
            && k in v.records && v.records == w.records[k := v.records[k]]
            && v.records[k] == w.records[k][0..32] + x.data + [w.records[k][107]]
  {
    hide UpdateConfig, Exec, PolicyPut, Inv;
    PolicyPlans(e, w, x);
    var b := Lifecycle.RewritesConfig(e, x, w);
    PolicyPutBytes(w.records[x.accounts[1]], x.data);
  }

  // ---- baskets ----

  /** The header of a basket: maker, counts, and the tail of the payload in the order of the record. */
  predicate HeaderBytes(b: seq<byte>, d: seq<byte>, maker: Key)
    requires BasketPayload(d)
  {
    var gives: nat, wants: nat := d[32], d[33];
    var o := 34 + gives * 8 + wants * 40;
    && |b| == 541
    && b[0..32] == maker && b[32] == d[32] && b[33] == d[33]
    && b[434..466] == d[o + 8..o + 40] && b[466] == d[o + 40] && b[467..499] == d[o + 41..o + 73]
    && b[499..507] == d[o..o + 8] && b[507] == 0 && b[509..541] == d[0..32]
  }

  /** Give entry i: the mint of its accounts, the amount of its payload. */
  predicate GiveBytes(b: seq<byte>, d: seq<byte>, mint: Key, i: nat)
    requires BasketPayload(d) && i < d[32]
  {
    var at, o := 34 + i * 40, 34 + i * 8;
    |b| == 541 && b[at..at + 32] == mint && b[at + 32..at + 40] == d[o..o + 8]
  }

  /** Want entry j: forty bytes of the payload. */
  predicate WantBytes(b: seq<byte>, d: seq<byte>, j: nat)
    requires BasketPayload(d) && j < d[33]
  {
    var gives: nat := d[32];
    var o := 34 + gives * 8 + j * 40;
    |b| == 541 && b[234 + j * 40..234 + j * 40 + 40] == d[o..o + 40]
  }

  lemma ReadsAsHeader(b: seq<byte>, d: seq<byte>, k: Basket)
    requires |b| == BASKET_LEN && BasketPayload(d) && k == ReadBasket(b)
    requires Baskets.PayloadFits(d) && k == Baskets.HeaderOf(d, k.maker, k.bump)
    ensures HeaderBytes(b, d, k.maker)
  {
    hide U64Of, I64Of;
    PayloadMeans(d);
    var o := Tail(d);
    SameBytes(b[499..507], d[o..o + 8]);
  }

  lemma ReadsAsGive(b: seq<byte>, d: seq<byte>, mint: Key, i: nat)
    requires |b| == BASKET_LEN && BasketPayload(d) && Baskets.PayloadFits(d) && i < d[32]
    requires GiveEntry(b, i) == Entry(mint, Baskets.GiveAmount(d, i))
    ensures GiveBytes(b, d, mint, i)
  {
    hide U64Of;
    SameBytes(b[34 + i * 40 + 32..34 + i * 40 + 40], d[34 + i * 8..34 + i * 8 + 8]);
  }

  lemma ReadsAsWant(b: seq<byte>, d: seq<byte>, j: nat)
    requires |b| == BASKET_LEN && BasketPayload(d) && Baskets.PayloadFits(d) && j < d[33]
    requires WantEntry(b, j)
        == Entry(KeyAt(Baskets.WantSlice(d, j), 0), U64At(Baskets.WantSlice(d, j), 32))
    ensures WantBytes(b, d, j)
  {
    hide U64Of;
    WantSliceReads(d, j);
    var at, o := 234 + j * 40, WantFrom(d, j);
    SameBytes(b[at + 32..at + 40], d[o + 32..o + 40]);
    assert b[at..at + 40] == b[at..at + 32] + b[at + 32..at + 40];
    assert d[o..o + 40] == d[o..o + 32] + d[o + 32..o + 40];
  }

  lemma HeaderMaker(d: seq<byte>, maker: Key, bump: byte)
    requires Baskets.PayloadFits(d)
    ensures Baskets.HeaderOf(d, maker, bump).maker == maker
  {
  }

  /** open_basket records its signer, the counts, every give leg, every want entry, and the tail of its payload: expiry,
      named taker, mode and claim hash each where the settling instructions read it. */
  lemma OpenBasketRecords(e: Env, w: World, x: Ix)
    requires ValidEnv(e) && ValidIx(e, x) && Inv(e, w) && Step(e, w, 12, x).Ok?
    ensures BasketPayload(x.data) && |x.accounts| == 6 + x.data[32] * 3
        && Adds(w, Step(e, w, 12, x).value, x.accounts[1])
    ensures var b, d, a := Step(e, w, 12, x).value.records[x.accounts[1]], x.data, x.accounts;
            && HeaderBytes(b, d, a[0])
            && (forall i: nat :: i < d[32] ==> GiveBytes(b, d, a[6 + i * 3], i))
            && forall j: nat :: j < d[33] ==> WantBytes(b, d, j)
  {
    hide Baskets.OpenBasket, Exec, Inv, ReadBasket, GiveEntry, WantEntry, Holds, Baskets.WantSlice, Baskets.HeaderOf,
        Baskets.IsLegVault, LockMoves, GiveBytes, WantBytes, HeaderBytes, Baskets.GiveAmount;
    Consent.PlainPlans(e, w, x);
    var k, b := OpenBasketLocks(e, w, x);
    PayloadMeans(x.data);
    HeaderMaker(x.data, x.accounts[0], k.bump);
    ReadsAsHeader(b, x.data, k);
    forall i: nat | i < x.data[32]
      ensures GiveBytes(b, x.data, x.accounts[6 + i * 3], i)
    {
      assert LegLocked(e, Step(e, w, 12, x).value, x, x.accounts[1], b, i);
      ReadsAsGive(b, x.data, x.accounts[6 + i * 3], i);
    }
    forall j: nat | j < x.data[33]
      ensures WantBytes(b, x.data, j)
    {
      ReadsAsWant(b, x.data, j);
    }
  }

  /** rewrap replaces the 32 claim bytes and keeps every other byte. */
  lemma RewrapRecords(e: Env, w: World, x: Ix)
    requires ValidEnv(e) && ValidIx(e, x) && Inv(e, w) && Step(e, w, 15, x).Ok?
    ensures |x.data| == 64 && |x.accounts| == 2 && x.accounts[1] in w.records && |w.records[x.accounts[1]]| == 541
    ensures var k, v := x.accounts[1], Step(e, w, 15, x).value;
            && k in v.records && v.records == w.records[k := v.records[k]]
            && v.records[k] == w.records[k][..467] + x.data[32..64] + w.records[k][499..]
  {
    hide Baskets.Rewrap, Exec, Inv, ReadBasket;
    BasketPlans(e, w, x);
    var k, b := Lifecycle.RewrapRewrites(e, x, w);
  }
}
