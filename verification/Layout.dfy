/** Hand-laid account layouts: every record is read and written through these offsets. */
module Layout {
  import opened Bytes

  // ---- swap and listing records ----
  const S_MAKER := 0
  const S_GIVE_MINT := 32
  const S_GIVE_AMT := 64
  const S_WANT_MINT := 72
  const S_WANT_AMT := 104
  const S_TAKER := 112
  const S_TERMS := 144
  const S_EXPIRY := 176
  const S_STATUS := 184
  const S_BUMP := 185
  const S_NONCE := 186
  const S_ROYALTY_MODE := 218
  const S_MAKER_PCT := 219
  const SWAP_LEN := 220

  // ---- offer records ----
  const O_OFFERER := 0
  const O_SWAP := 32
  const O_WANT_MINT := 64
  const O_WANT_AMT := 96
  const O_GIVE_MINT := 104
  const O_GIVE_AMT := 136
  const O_EXPIRY := 144
  const O_STATUS := 152
  const O_BUMP := 153
  const O_NONCE := 154
  const OFFER_LEN := 186

  // ---- the fee-policy record ----
  const C_ADMIN := 0
  const C_FEE_WALLET := 32
  const C_FEE_BPS := 64
  const C_DELIST_FEE := 66
  const C_ALIAS_PROGRAM := 74
  const C_FEE_SHARDS := 106
  const C_BUMP := 107
  const CONFIG_LEN := 108
  const BPS_DENOM := 10_000

  // ---- basket records ----
  const MAX_LEG := 5
  const ENTRY := 40
  const B_MAKER := 0
  const B_GIVE_COUNT := 32
  const B_WANT_COUNT := 33
  const B_GIVE := 34
  const B_WANT := 234
  const B_TAKER := 434
  const B_AUTH_MODE := 466
  const B_CLAIM_AUTH := 467
  const B_EXPIRY := 499
  const B_STATUS := 507
  const B_BUMP := 508
  const B_NONCE := 509
  const BASKET_LEN := 541
  const AUTH_NORMAL: byte := 0
  const AUTH_BEARER: byte := 1

  const STATUS_OPEN: byte := 0
  const MARKER_LEN := 1

  const ROYALTY_NONE: byte := 0
  const ROYALTY_MAKER: byte := 1
  const ROYALTY_TAKER: byte := 2
  const ROYALTY_SPLIT: byte := 3

  function KeyAt(b: seq<byte>, off: nat): Key
    requires off + 32 <= |b|
  {
    b[off..off + 32]
  }

  function U64At(b: seq<byte>, off: nat): (n: nat)
    requires off + 8 <= |b|
  {
    U64Of(b[off..off + 8])
  }

  function I64At(b: seq<byte>, off: nat): (i: int)
    requires off + 8 <= |b|
  {
    I64Of(b[off..off + 8])
  }

  function U16At(b: seq<byte>, off: nat): (n: nat)
    requires off + 2 <= |b|
  {
    LE(b[off..off + 2])
  }

  type u64 = n: int | 0 <= n < U64
  type i64 = n: int | -I64_SIGN <= n < I64_SIGN

  // ---- 220 bytes: a swap or a listing ----

  datatype Swap = Swap(maker: Key, giveMint: Key, giveAmount: u64, wantMint: Key, wantAmount: u64, taker: Key,
                       terms: Key, expiry: i64, status: byte, bump: byte, nonce: Key, royaltyMode: byte, makerPct: byte)

  /** What a settling handler reads. */
  function ReadSwap(b: seq<byte>): Swap
    requires |b| == SWAP_LEN
  {
    Swap(KeyAt(b, S_MAKER), KeyAt(b, S_GIVE_MINT), U64At(b, S_GIVE_AMT), KeyAt(b, S_WANT_MINT), U64At(b, S_WANT_AMT),
         KeyAt(b, S_TAKER), KeyAt(b, S_TERMS), I64At(b, S_EXPIRY), b[S_STATUS], b[S_BUMP], KeyAt(b, S_NONCE),
         b[S_ROYALTY_MODE], b[S_MAKER_PCT])
  }

  /** The buffer `open_swap` leaves: eleven in-place writes over a zeroed account. */
  function SwapImage(s: Swap): (b: seq<byte>)
    ensures |b| == SWAP_LEN
  {
    var b := Zeros(SWAP_LEN);
    var b := Put(b, S_MAKER, s.maker);
    var b := Put(b, S_GIVE_MINT, s.giveMint);
    var b := Put(b, S_GIVE_AMT, U64Bytes(s.giveAmount));
    var b := Put(b, S_WANT_MINT, s.wantMint);
    var b := Put(b, S_WANT_AMT, U64Bytes(s.wantAmount));
    var b := Put(b, S_TAKER, s.taker);
    var b := Put(b, S_TERMS, s.terms);
    var b := Put(b, S_EXPIRY, I64Bytes(s.expiry));
    var b := Put(b, S_STATUS, [s.status]);
    var b := Put(b, S_BUMP, [s.bump]);
    Put(b, S_NONCE, s.nonce)
  }

  /** The buffer `list` leaves: the same fields and the royalty stance. */
  function ListingImage(s: Swap): (b: seq<byte>)
    ensures |b| == SWAP_LEN
  {
    var b := Zeros(SWAP_LEN);
    var b := Put(b, S_MAKER, s.maker);
    var b := Put(b, S_GIVE_MINT, s.giveMint);
    var b := Put(b, S_GIVE_AMT, U64Bytes(s.giveAmount));
    var b := Put(b, S_ROYALTY_MODE, [s.royaltyMode]);
    var b := Put(b, S_MAKER_PCT, [s.makerPct]);
    var b := Put(b, S_WANT_MINT, s.wantMint);
    var b := Put(b, S_WANT_AMT, U64Bytes(s.wantAmount));
    var b := Put(b, S_TAKER, s.taker);
    var b := Put(b, S_TERMS, s.terms);
    var b := Put(b, S_EXPIRY, I64Bytes(s.expiry));
    var b := Put(b, S_STATUS, [s.status]);
    var b := Put(b, S_BUMP, [s.bump]);
    Put(b, S_NONCE, s.nonce)
  }

  /** No two fields overlap: every field of every listing is read back as written. */
  lemma ListingReadsBack(s: Swap)
    ensures ReadSwap(ListingImage(s)) == s
  {
    var b := ListingImage(s);
    assert b[S_STATUS..S_STATUS + 1] == [s.status];
    assert b[S_BUMP..S_BUMP + 1] == [s.bump];
    assert b[S_ROYALTY_MODE..S_ROYALTY_MODE + 1] == [s.royaltyMode];
    assert b[S_MAKER_PCT..S_MAKER_PCT + 1] == [s.makerPct];
  }

  /** A swap reads back as written, with the royalty bytes it never writes at zero. */
  lemma SwapReadsBack(s: Swap)
    ensures ReadSwap(SwapImage(s)) == s.(royaltyMode := ROYALTY_NONE, makerPct := 0)
  {
    var b := SwapImage(s);
    assert b[S_STATUS..S_STATUS + 1] == [s.status];
    assert b[S_BUMP..S_BUMP + 1] == [s.bump];
  }

  // ---- 186 bytes: a bid on an open swap ----

  datatype Offer = Offer(offerer: Key, swap: Key, wantMint: Key, wantAmount: u64, giveMint: Key, giveAmount: u64,
                         expiry: i64, status: byte, bump: byte, nonce: Key)

  function ReadOffer(b: seq<byte>): Offer
    requires |b| == OFFER_LEN
  {
    Offer(KeyAt(b, O_OFFERER), KeyAt(b, O_SWAP), KeyAt(b, O_WANT_MINT), U64At(b, O_WANT_AMT), KeyAt(b, O_GIVE_MINT),
          U64At(b, O_GIVE_AMT), I64At(b, O_EXPIRY), b[O_STATUS], b[O_BUMP], KeyAt(b, O_NONCE))
  }

  function OfferImage(o: Offer): (b: seq<byte>)
    ensures |b| == OFFER_LEN
  {
    var b := Zeros(OFFER_LEN);
    var b := Put(b, O_OFFERER, o.offerer);
    var b := Put(b, O_SWAP, o.swap);
    var b := Put(b, O_WANT_MINT, o.wantMint);
    var b := Put(b, O_WANT_AMT, U64Bytes(o.wantAmount));
    var b := Put(b, O_GIVE_MINT, o.giveMint);
    var b := Put(b, O_GIVE_AMT, U64Bytes(o.giveAmount));
    var b := Put(b, O_EXPIRY, I64Bytes(o.expiry));
    var b := Put(b, O_STATUS, [o.status]);
    var b := Put(b, O_BUMP, [o.bump]);
    Put(b, O_NONCE, o.nonce)
  }

  lemma OfferReadsBack(o: Offer)
    ensures ReadOffer(OfferImage(o)) == o
  {
    var b := OfferImage(o);
    assert b[O_STATUS..O_STATUS + 1] == [o.status];
    assert b[O_BUMP..O_BUMP + 1] == [o.bump];
  }

  // ---- 108 bytes: the fee policy ----

  datatype Config = Config(admin: Key, feeWallet: Key, feeBps: nat, delistFee: u64, aliasProgram: Key,
                           feeShards: byte, bump: byte)

  function ReadConfigRecord(b: seq<byte>): Config
    requires |b| == CONFIG_LEN
  {
    Config(KeyAt(b, C_ADMIN), KeyAt(b, C_FEE_WALLET), U16At(b, C_FEE_BPS), U64At(b, C_DELIST_FEE),
           KeyAt(b, C_ALIAS_PROGRAM), b[C_FEE_SHARDS], b[C_BUMP])
  }

  /** The five policy writes both config writers share: payload `fee_wallet | bps | delist_fee | alias | shards`. */
  function PolicyPut(b: seq<byte>, d: seq<byte>): (r: seq<byte>)
    requires |b| == CONFIG_LEN && |d| == 75
    ensures |r| == CONFIG_LEN
  {
    var b := Put(b, C_FEE_WALLET, d[0..32]);
    var b := Put(b, C_FEE_BPS, d[32..34]);
    var b := Put(b, C_DELIST_FEE, d[34..42]);
    var b := Put(b, C_ALIAS_PROGRAM, d[42..74]);
    Put(b, C_FEE_SHARDS, [d[74]])
  }

  function ConfigImage(admin: Key, d: seq<byte>, bump: byte): (r: seq<byte>)
    requires |d| == 75
    ensures |r| == CONFIG_LEN
  {
    var b := Put(Zeros(CONFIG_LEN), C_ADMIN, admin);
    Put(PolicyPut(b, d), C_BUMP, [bump])
  }

  /** A policy write sets exactly the five policy fields; admin and bump keep their values. */
  lemma PolicyReadsBack(b: seq<byte>, d: seq<byte>)
    requires |b| == CONFIG_LEN && |d| == 75
    ensures ReadConfigRecord(PolicyPut(b, d)) ==
            Config(KeyAt(b, C_ADMIN), KeyAt(d, 0), U16At(d, 32), U64At(d, 34), KeyAt(d, 42), d[74], b[C_BUMP])
  {
    var r := PolicyPut(b, d);
    assert r[C_FEE_SHARDS..C_FEE_SHARDS + 1] == [d[74]];
  }

  lemma ConfigReadsBack(admin: Key, d: seq<byte>, bump: byte)
    requires |d| == 75
    ensures ReadConfigRecord(ConfigImage(admin, d, bump)) ==
            Config(admin, KeyAt(d, 0), U16At(d, 32), U64At(d, 34), KeyAt(d, 42), d[74], bump)
  {
    var b := Put(Zeros(CONFIG_LEN), C_ADMIN, admin);
    var p := PolicyPut(b, d);
    PolicyReadsBack(b, d);
    var r := Put(p, C_BUMP, [bump]);
    assert r[C_BUMP..C_BUMP + 1] == [bump];
    assert KeyAt(p, C_ADMIN) == admin;
  }

  // ---- 541 bytes: a basket ----

  datatype Basket = Basket(maker: Key, giveCount: byte, wantCount: byte, taker: Key, authMode: byte, claimAuth: Key,
                           expiry: i64, status: byte, bump: byte, nonce: Key)

  datatype Entry = Entry(mint: Key, amount: u64)

  function ReadBasket(b: seq<byte>): Basket
    requires |b| == BASKET_LEN
  {
    Basket(KeyAt(b, B_MAKER), b[B_GIVE_COUNT], b[B_WANT_COUNT], KeyAt(b, B_TAKER), b[B_AUTH_MODE],
           KeyAt(b, B_CLAIM_AUTH), I64At(b, B_EXPIRY), b[B_STATUS], b[B_BUMP], KeyAt(b, B_NONCE))
  }

  /** A leg index whose entry the record has room for; beyond it the program's slice panics. */
  predicate InRecord(base: nat, i: nat) {
    base + i * ENTRY + ENTRY <= BASKET_LEN
  }

  function GiveEntry(b: seq<byte>, i: nat): Entry
    requires |b| == BASKET_LEN && InRecord(B_GIVE, i)
  {
    Entry(KeyAt(b, B_GIVE + i * ENTRY), U64At(b, B_GIVE + i * ENTRY + 32))
  }

  function WantEntry(b: seq<byte>, j: nat): Entry
    requires |b| == BASKET_LEN && InRecord(B_WANT, j)
  {
    Entry(KeyAt(b, B_WANT + j * ENTRY), U64At(b, B_WANT + j * ENTRY + 32))
  }

  /** The header writes of `open_basket`. */
  function HeaderImage(k: Basket): (b: seq<byte>)
    ensures |b| == BASKET_LEN
  {
    var b := Zeros(BASKET_LEN);
    var b := Put(b, B_MAKER, k.maker);
    var b := Put(b, B_GIVE_COUNT, [k.giveCount]);
    var b := Put(b, B_WANT_COUNT, [k.wantCount]);
    var b := Put(b, B_TAKER, k.taker);
    var b := Put(b, B_AUTH_MODE, [k.authMode]);
    var b := Put(b, B_CLAIM_AUTH, k.claimAuth);
    var b := Put(b, B_EXPIRY, I64Bytes(k.expiry));
    var b := Put(b, B_STATUS, [k.status]);
    var b := Put(b, B_BUMP, [k.bump]);
    Put(b, B_NONCE, k.nonce)
  }

  lemma HeaderReadsBack(k: Basket)
    ensures ReadBasket(HeaderImage(k)) == k
  {
    var b := HeaderImage(k);
    assert b[B_GIVE_COUNT..B_GIVE_COUNT + 1] == [k.giveCount];
    assert b[B_WANT_COUNT..B_WANT_COUNT + 1] == [k.wantCount];
    assert b[B_AUTH_MODE..B_AUTH_MODE + 1] == [k.authMode];
    assert b[B_STATUS..B_STATUS + 1] == [k.status];
    assert b[B_BUMP..B_BUMP + 1] == [k.bump];
  }

  /** Want entry j is copied whole, as 40 payload bytes. */
  function PutWant(b: seq<byte>, j: nat, entry: seq<byte>): (r: seq<byte>)
    requires |b| == BASKET_LEN && j < MAX_LEG && |entry| == ENTRY
    ensures |r| == BASKET_LEN
  {
    Put(b, B_WANT + j * ENTRY, entry)
  }

  /** Give entry i is written as two copies: the mint, then the amount. */
  function PutGive(b: seq<byte>, i: nat, mint: Key, amount: u64): (r: seq<byte>)
    requires |b| == BASKET_LEN && i < MAX_LEG
    ensures |r| == BASKET_LEN
  {
    Put(Put(b, B_GIVE + i * ENTRY, mint), B_GIVE + i * ENTRY + 32, U64Bytes(amount))
  }

  lemma PutWantReadsBack(b: seq<byte>, j: nat, entry: seq<byte>)
    requires |b| == BASKET_LEN && j < MAX_LEG && |entry| == ENTRY
    ensures ReadBasket(PutWant(b, j, entry)) == ReadBasket(b)
    ensures WantEntry(PutWant(b, j, entry), j) == Entry(KeyAt(entry, 0), U64At(entry, 32))
    ensures forall i :: 0 <= i < MAX_LEG && i != j ==> WantEntry(PutWant(b, j, entry), i) == WantEntry(b, i)
    ensures forall i :: 0 <= i < MAX_LEG ==> GiveEntry(PutWant(b, j, entry), i) == GiveEntry(b, i)
  {
    var r, o := PutWant(b, j, entry), B_WANT + j * ENTRY;
    assert r[o..o + ENTRY] == entry;
    assert r[o..o + 32] == r[o..o + ENTRY][..32] == entry[0..32];
    assert r[o + 32..o + 40] == r[o..o + ENTRY][32..] == entry[32..40];
  }

  lemma PutGiveReadsBack(b: seq<byte>, j: nat, mint: Key, amount: u64)
    requires |b| == BASKET_LEN && j < MAX_LEG
    ensures ReadBasket(PutGive(b, j, mint, amount)) == ReadBasket(b)
    ensures GiveEntry(PutGive(b, j, mint, amount), j) == Entry(mint, amount)
    ensures forall i :: 0 <= i < MAX_LEG && i != j ==> GiveEntry(PutGive(b, j, mint, amount), i) == GiveEntry(b, i)
    ensures forall i :: 0 <= i < MAX_LEG ==> WantEntry(PutGive(b, j, mint, amount), i) == WantEntry(b, i)
  {
  }

  /** `rewrap`'s one write. */
  function PutClaim(b: seq<byte>, claim: Key): (r: seq<byte>)
    requires |b| == BASKET_LEN
    ensures |r| == BASKET_LEN
  {
    Put(b, B_CLAIM_AUTH, claim)
  }

  /** Rewrapping changes the claim hash and nothing else. */
  lemma RewrapChangesOnlyTheClaim(b: seq<byte>, claim: Key)
    requires |b| == BASKET_LEN
    ensures ReadBasket(PutClaim(b, claim)) == ReadBasket(b).(claimAuth := claim)
    ensures forall i :: 0 <= i < MAX_LEG ==> GiveEntry(PutClaim(b, claim), i) == GiveEntry(b, i)
    ensures forall i :: 0 <= i < MAX_LEG ==> WantEntry(PutClaim(b, claim), i) == WantEntry(b, i)
  {
  }

  // ---- live and wiped accounts ----

  /** Every record starts with the key of its party, and no party has the zero key: a record is live
      until `close` fills it with zeros. The status byte alone cannot tell, since open is zero. */
  predicate Live(b: seq<byte>) {
    |b| >= 32 && KeyAt(b, 0) != ZERO
  }

  lemma WipedReadsOpen()
    ensures !Live(Zeros(SWAP_LEN)) && ReadSwap(Zeros(SWAP_LEN)).status == STATUS_OPEN
    ensures !Live(Zeros(OFFER_LEN)) && ReadOffer(Zeros(OFFER_LEN)).status == STATUS_OPEN
    ensures !Live(Zeros(BASKET_LEN)) && ReadBasket(Zeros(BASKET_LEN)).status == STATUS_OPEN
  {
    assert KeyAt(Zeros(SWAP_LEN), 0) == ZERO;
    assert KeyAt(Zeros(OFFER_LEN), 0) == ZERO;
    assert KeyAt(Zeros(BASKET_LEN), 0) == ZERO;
  }
}
