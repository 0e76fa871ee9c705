/** Baskets of up to five mints, and bearer baskets claimed by key (tags 12-17). */
module Baskets {
  import opened Prelude
  import opened Bytes
  import opened Seeds
  import opened Layout
  import opened Ledger
  import opened FeeConfig
  import opened Payments
  import opened Swaps

  // ---- the open_basket payload ----

  /** nonce | give_count | want_count | give amounts | want entries | expiry | taker | auth_mode | claim_auth. */
  function WantOffset(giveCount: nat): nat { 34 + giveCount * 8 }

  function TailOffset(giveCount: nat, wantCount: nat): nat { WantOffset(giveCount) + wantCount * ENTRY }

  predicate PayloadFits(d: seq<byte>) {
    && |d| >= 34
    && 1 <= d[32] <= MAX_LEG && d[33] <= MAX_LEG
    && |d| == TailOffset(d[32], d[33]) + 73
  }

  function GiveAmount(d: seq<byte>, i: nat): u64
    requires PayloadFits(d) && i < d[32]
  {
    U64At(d, 34 + i * 8)
  }

  function WantSlice(d: seq<byte>, j: nat): (s: seq<byte>)
    requires PayloadFits(d) && j < d[33]
    ensures |s| == ENTRY
  {
    var o := WantOffset(d[32]) + j * ENTRY;
    d[o..o + ENTRY]
  }

  /** The leg's vault is the address of (maker, nonce, index). */
  predicate IsLegVault(e: Env, maker: Key, nonce: Key, i: nat, vault: Key) {
    i < 256 && Find(e.derive, BVaultSeed(maker, nonce, i)).Ok?
        && Find(e.derive, BVaultSeed(maker, nonce, i)).value.key == vault
  }

  /** The want loop refuses a zero amount and copies each entry into the record. */
  function WantChecks(d: seq<byte>, j: nat): seq<Op>
    requires PayloadFits(d) && j <= d[33]
    decreases d[33] - j
  {
    if j == d[33] then [] else [Check(U64At(WantSlice(d, j), 32) != 0, InvalidInstructionData)] + WantChecks(d, j + 1)
  }

  function WithWants(b: seq<byte>, d: seq<byte>, j: nat): (r: seq<byte>)
    requires |b| == BASKET_LEN && PayloadFits(d) && j <= d[33]
    ensures |r| == BASKET_LEN
    decreases d[33] - j
  {
    if j == d[33] then b else WithWants(PutWant(b, j, WantSlice(d, j)), d, j + 1)
  }

  /** No selling an asset for itself. */
  predicate NotWanted(b: seq<byte>, wantCount: nat, mint: Key)
    requires |b| == BASKET_LEN && wantCount <= MAX_LEG
  {
    forall j :: 0 <= j < wantCount ==> WantEntry(b, j).mint != mint
  }

  /** The record after leg i. */
  function WithGive(x: Ix, b: seq<byte>, i: nat): (r: seq<byte>)
    requires PayloadFits(x.data) && |x.accounts| == 6 + x.data[32] * 3 && |b| == BASKET_LEN && i < x.data[32]
    ensures |r| == BASKET_LEN
  {
    PutGive(b, i, x.accounts[6 + i * 3], GiveAmount(x.data, i))
  }

  /** Give leg i: create and fill the vault, then record the entry. */
  function LockLeg(e: Env, x: Ix, basket: Key, b: seq<byte>, i: nat): seq<Op>
    requires PayloadFits(x.data) && |x.accounts| == 6 + x.data[32] * 3 && |b| == BASKET_LEN && i < x.data[32]
  {
    var maker, amount := x.accounts[0], GiveAmount(x.data, i);
    var mint, vault, makerGive := x.accounts[6 + i * 3], x.accounts[6 + i * 3 + 1], x.accounts[6 + i * 3 + 2];
    [Check(amount != 0, InvalidInstructionData),
     Check(NotWanted(b, x.data[33], mint), InvalidArgument),
     Check(IsLegVault(e, maker, KeyAt(x.data, 0), i, vault), InvalidSeeds),
     NewToken(vault, mint, basket),
     Check(mint in e.mints, InvalidAccountData),
     Transfer(makerGive, mint, vault, Signer(maker), amount),
     Write(basket, WithGive(x, b, i))]
  }

  /** Give legs from i on. */
  function LockOps(e: Env, x: Ix, basket: Key, b: seq<byte>, i: nat): seq<Op>
    requires PayloadFits(x.data) && |x.accounts| == 6 + x.data[32] * 3 && |b| == BASKET_LEN && i <= x.data[32]
    decreases x.data[32] - i
  {
    if i == x.data[32] then [] else LockLeg(e, x, basket, b, i) + LockOps(e, x, basket, WithGive(x, b, i), i + 1)
  }

  /** The header fields, from the payload's fixed head and its tail. */
  function HeaderOf(d: seq<byte>, maker: Key, bump: byte): Basket
    requires PayloadFits(d)
  {
    var tail := TailOffset(d[32], d[33]);
    Basket(maker, d[32], d[33], KeyAt(d, tail + 8), d[tail + 40], KeyAt(d, tail + 41), I64At(d, tail), STATUS_OPEN,
        bump, KeyAt(d, 0))
  }

  /** open_basket (tag 12): maker | basket | system | token_program | config | alias | (mint | vault | maker_give)*. */
  function OpenBasket(e: Env, w: World, x: Ix): Plan {
    var d := x.data;
    :- Need(PayloadFits(d), InvalidInstructionData);
    var k := HeaderOf(d, ZERO, 0);
    :- Need(k.authMode == AUTH_NORMAL || k.authMode == AUTH_BEARER, InvalidInstructionData);
    :- Need(k.authMode == AUTH_BEARER ==> k.wantCount == 0 && k.claimAuth != ZERO, InvalidArgument);
    :- Need(w.now < k.expiry, InvalidArgument);
    :- Need(|x.accounts| == 6 + d[32] * 3, NotEnoughAccountKeys);
    var maker, basket := x.accounts[0], x.accounts[1];
    :- Need(maker in x.signers, MissingRequiredSignature);
    :- RequireAlias(e, w, x, x.accounts[4]);
    var p :- Find(e.derive, BasketSeed(maker, k.nonce));
    :- Need(p.key == basket, InvalidSeeds);
    var b := WithWants(HeaderImage(HeaderOf(d, maker, p.bump)), d, 0);
    Ok([NewRecord(basket, BASKET_LEN)] + WantChecks(d, 0) + [Write(basket, b)] + LockOps(e, x, basket, b, 0))
  }

  // ---- settling ----

  /** A vault that an earlier leg closed no longer reads as a token account. */
  predicate StillOpen(x: Ix, base: nat, i: nat, dst: Key)
    requires |x.accounts| >= base + i * 3
  {
    forall j :: 0 <= j < i ==> x.accounts[base + j * 3 + 1] != dst
  }

  /** Give leg i: the vault releases its recorded amount and closes. The destination is checked against
      `payee` where the source checks it. */
  function UnlockLeg(e: Env, w: World, x: Ix, b: seq<byte>, nonce: Key, base: nat, auth: Authority, payee: Option<Key>,
      i: nat): seq<Op>
    requires |b| == BASKET_LEN && |x.accounts| >= base + ReadBasket(b).giveCount * 3 && i < ReadBasket(b).giveCount
  {
    if !InRecord(B_GIVE, i) then [Check(false, InvalidAccountData)] else
    var mint, vault, dst, entry := x.accounts[base + i * 3], x.accounts[base + i * 3 + 1],
        x.accounts[base + i * 3 + 2], GiveEntry(b, i);
    [Check(entry.mint == mint, InvalidArgument),
     Check(payee.Some? ==> IsTokenAccount(w, dst, mint, payee.value) && StillOpen(x, base, i, dst), InvalidArgument),
     Check(IsLegVault(e, ReadBasket(b).maker, nonce, i, vault), InvalidSeeds),
     Check(mint in e.mints, InvalidAccountData),
     Transfer(vault, mint, dst, auth, entry.amount),
     CloseToken(vault, auth)]
  }

  function UnlockOps(e: Env, w: World, x: Ix, b: seq<byte>, nonce: Key, base: nat, auth: Authority, payee: Option<Key>,
      i: nat): seq<Op>
    requires |b| == BASKET_LEN && |x.accounts| >= base + ReadBasket(b).giveCount * 3 && i <= ReadBasket(b).giveCount
    decreases ReadBasket(b).giveCount - i
  {
    if i == ReadBasket(b).giveCount then [] else
    UnlockLeg(e, w, x, b, nonce, base, auth, payee, i) + UnlockOps(e, w, x, b, nonce, base, auth, payee, i + 1)
  }

  /** Want leg j: the taker pays the maker, the fee is skimmed. */
  function PayLeg(e: Env, w: World, x: Ix, c: Config, b: seq<byte>, nonce: Key, j: nat): seq<Op>
    requires |b| == BASKET_LEN && j < ReadBasket(b).wantCount
    requires |x.accounts| == 5 + ReadBasket(b).giveCount * 3 + ReadBasket(b).wantCount * 4
  {
    if !InRecord(B_WANT, j) then [Check(false, InvalidAccountData)] else
    var at, entry := 5 + ReadBasket(b).giveCount * 3 + j * 4, WantEntry(b, j);
    var mint, takerWant, makerWant, feeAccount := x.accounts[at], x.accounts[at + 1], x.accounts[at + 2],
        x.accounts[at + 3];
    [Check(entry.mint == mint, InvalidArgument),
     Check(IsTokenAccount(w, makerWant, mint, ReadBasket(b).maker), InvalidArgument),
     Check(mint in e.mints, InvalidAccountData)]
    + PriceOps(e, w, c, takerWant, mint, feeAccount, makerWant, Signer(x.accounts[0]), entry.amount, nonce[0])
  }

  function PayOps(e: Env, w: World, x: Ix, c: Config, b: seq<byte>, nonce: Key, j: nat): seq<Op>
    requires |b| == BASKET_LEN && j <= ReadBasket(b).wantCount
    requires |x.accounts| == 5 + ReadBasket(b).giveCount * 3 + ReadBasket(b).wantCount * 4
    decreases ReadBasket(b).wantCount - j
  {
    if j == ReadBasket(b).wantCount then [] else
    PayLeg(e, w, x, c, b, nonce, j) + PayOps(e, w, x, c, b, nonce, j + 1)
  }

  /** A basket record that is open; the status byte of a wiped one says so too. */
  function OpenRecord(w: World, basket: Key): Result<Basket> {
    if basket !in w.records then Err(IllegalOwner) else
    var b := w.records[basket];
    :- Need(|b| == BASKET_LEN && b[B_STATUS] == STATUS_OPEN, InvalidAccountData);
    Ok(ReadBasket(b))
  }

  /** The record's own address, re-derived from the payload nonce and the stored bump. */
  function BasketAuth(e: Env, basket: Key, maker: Key, nonce: Key, bump: byte): Result<Authority> {
    if Create(e.derive, BasketSeed(maker, nonce), bump) != Some(basket) then Err(InvalidSeeds) else
    Ok(Seeded(basket, BasketSeed(maker, nonce), bump))
  }

  /** fill_basket (tag 13): taker | basket | maker | token_program | config | give legs * 3 | want legs * 4. */
  function FillBasket(e: Env, w: World, x: Ix): Plan {
    if |x.data| != 32 then Err(InvalidInstructionData) else
    :- Need(|x.accounts| >= 5, NotEnoughAccountKeys);
    var taker, basket, maker, config := x.accounts[0], x.accounts[1], x.accounts[2], x.accounts[4];
    :- Need(taker in x.signers, MissingRequiredSignature);
    var k :- OpenRecord(w, basket);
    :- Need(k.authMode == AUTH_NORMAL, InvalidArgument);
    :- Need(k.wantCount != 0, InvalidArgument);
    :- Need(w.now < k.expiry, InvalidArgument);
    :- Need(k.taker == ZERO || k.taker == taker, InvalidArgument);
    :- Need(maker == k.maker, InvalidArgument);
    var auth :- BasketAuth(e, basket, k.maker, x.data, k.bump);
    :- Need(|x.accounts| == 5 + k.giveCount * 3 + k.wantCount * 4, NotEnoughAccountKeys);
    var c :- ReadConfig(e, w, config);
    var b := w.records[basket];
    Ok(PayOps(e, w, x, c, b, x.data, 0) + UnlockOps(e, w, x, b, x.data, 5, auth, None, 0) + [Wipe(basket)])
  }

  /** claim_bearer (tag 14): payer | bearer | basket | maker | token_program | give legs * 3. */
  function ClaimBearer(e: Env, w: World, x: Ix): Plan {
    if |x.data| != 32 then Err(InvalidInstructionData) else
    :- Need(|x.accounts| >= 5, NotEnoughAccountKeys);
    var payer, bearer, basket, maker := x.accounts[0], x.accounts[1], x.accounts[2], x.accounts[3];
    :- Need(payer in x.signers && bearer in x.signers, MissingRequiredSignature);
    var k :- OpenRecord(w, basket);
    :- Need(k.authMode == AUTH_BEARER, InvalidArgument);
    :- Need(e.hash(bearer) == k.claimAuth, InvalidArgument);
    :- Need(maker == k.maker, InvalidArgument);
    var auth :- BasketAuth(e, basket, k.maker, x.data, k.bump);
    :- Need(|x.accounts| == 5 + k.giveCount * 3, NotEnoughAccountKeys);
    Ok(UnlockOps(e, w, x, w.records[basket], x.data, 5, auth, None, 0) + [Wipe(basket)])
  }

  /** rewrap (tag 15): bearer | basket; payload is the nonce and the next claim hash. */
  function Rewrap(e: Env, w: World, x: Ix): Plan {
    if |x.data| != 64 then Err(InvalidInstructionData) else
    var claim := KeyAt(x.data, 32);
    :- Need(claim != ZERO, InvalidArgument);
    :- Need(|x.accounts| == 2, NotEnoughAccountKeys);
    var bearer, basket := x.accounts[0], x.accounts[1];
    :- Need(bearer in x.signers, MissingRequiredSignature);
    var k :- OpenRecord(w, basket);
    :- Need(k.authMode == AUTH_BEARER, InvalidAccountData);
    :- Need(e.hash(bearer) == k.claimAuth, InvalidArgument);
    var p :- Find(e.derive, BasketSeed(k.maker, KeyAt(x.data, 0)));
    :- Need(p.key == basket, InvalidSeeds);
    Ok([Write(basket, PutClaim(w.records[basket], claim))])
  }

  /** cancel_basket (tag 16): maker | basket | token_program | config | fee_wallet | system | give legs * 3. */
  function CancelBasket(e: Env, w: World, x: Ix): Plan {
    if |x.data| != 32 then Err(InvalidInstructionData) else
    :- Need(|x.accounts| >= 6, NotEnoughAccountKeys);
    var maker, basket := x.accounts[0], x.accounts[1];
    :- Need(maker in x.signers, MissingRequiredSignature);
    var k :- OpenRecord(w, basket);
    :- Need(k.authMode != AUTH_BEARER, InvalidArgument);
    :- Need(k.maker == maker, IllegalOwner);
    var auth :- BasketAuth(e, basket, maker, x.data, k.bump);
    :- Need(|x.accounts| == 6 + k.giveCount * 3, NotEnoughAccountKeys);
    :- DelistGate(e, w, x.accounts[3], x.accounts[4]);
    Ok(UnlockOps(e, w, x, w.records[basket], x.data, 6, auth, Some(maker), 0) + [Wipe(basket)])
  }

  /** expire_basket (tag 17): caller | basket | maker | token_program | give legs * 3. Anyone may call it. */
  function ExpireBasket(e: Env, w: World, x: Ix): Plan {
    if |x.data| != 32 then Err(InvalidInstructionData) else
    :- Need(|x.accounts| >= 4, NotEnoughAccountKeys);
    var basket, maker := x.accounts[1], x.accounts[2];
    var k :- OpenRecord(w, basket);
    :- Need(k.authMode != AUTH_BEARER, InvalidArgument);
    :- Need(k.expiry <= w.now, InvalidArgument);
    :- Need(maker == k.maker, InvalidArgument);
    var auth :- BasketAuth(e, basket, k.maker, x.data, k.bump);
    :- Need(|x.accounts| == 4 + k.giveCount * 3, NotEnoughAccountKeys);
    Ok(UnlockOps(e, w, x, w.records[basket], x.data, 4, auth, Some(k.maker), 0) + [Wipe(basket)])
  }
}
