/** The basket handlers as the program runs them: loops over legs that check, transfer, close, and write
    the record buffer in place. */
module BasketHandlers {
  import opened Prelude
  import opened Bytes
  import opened Seeds
  import opened Layout
  import opened Ledger
  import opened FeeConfig
  import opened Payments
  import opened Bank
  import opened Settle
  import opened Baskets
  import Swaps
  import BasketInvariant

  // ---- opening ----

  lemma NoChecksPass()
    ensures Verdict([]) == Pass
  {
  }

  method WriteWants(s: array<byte>, d: seq<byte>) returns (r: Outcome)
    requires s.Length == BASKET_LEN && PayloadFits(d)
    modifies s
    ensures (forall op :: op in WantChecks(d, 0) ==> op.Check?) && r == Verdict(WantChecks(d, 0))
    ensures r.Pass? ==> s[..] == WithWants(old(s[..]), d, 0)
  {
    hide Put, WantSlice, U64At, Verdict;
    BasketInvariant.WantChecksAreChecks(d, 0);
    var j := 0;
    while j < d[33]
      invariant 0 <= j <= d[33]
      invariant forall op :: op in WantChecks(d, j) ==> op.Check?
      invariant Verdict(WantChecks(d, 0)) == Verdict(WantChecks(d, j))
      invariant WithWants(old(s[..]), d, 0) == WithWants(s[..], d, j)
    {
      BasketInvariant.WantChecksAreChecks(d, j + 1);
      VerdictCons(Check(U64At(WantSlice(d, j), 32) != 0, InvalidInstructionData), WantChecks(d, j + 1));
      var entry := WantSlice(d, j);
      if U64At(entry, 32) == 0 {
        return Fail(InvalidInstructionData);
      }
      CopyInto(s, B_WANT + j * ENTRY, entry);
      j := j + 1;
    }
    NoChecksPass();
    return Pass;
  }

  /** The header writes and the want loop, into the zeroed buffer. */
  method WriteHeaderAndWants(s: array<byte>, d: seq<byte>, k: Basket) returns (r: Outcome)
    requires s[..] == Zeros(BASKET_LEN) && PayloadFits(d)
    modifies s
    ensures (forall op :: op in WantChecks(d, 0) ==> op.Check?) && r == Verdict(WantChecks(d, 0))
    ensures r.Pass? ==> s[..] == WithWants(HeaderImage(k), d, 0)
  {
    hide Put, Verdict;
    BasketInvariant.WantChecksAreChecks(d, 0);
    CopyInto(s, B_MAKER, k.maker);
    CopyInto(s, B_GIVE_COUNT, [k.giveCount]);
    CopyInto(s, B_WANT_COUNT, [k.wantCount]);
    CopyInto(s, B_TAKER, k.taker);
    CopyInto(s, B_AUTH_MODE, [k.authMode]);
    CopyInto(s, B_CLAIM_AUTH, k.claimAuth);
    CopyInto(s, B_EXPIRY, I64Bytes(k.expiry));
    CopyInto(s, B_STATUS, [k.status]);
    CopyInto(s, B_BUMP, [k.bump]);
    CopyInto(s, B_NONCE, k.nonce);
    assert s[..] == HeaderImage(k);
    r := WriteWants(s, d);
  }

  /** No selling an asset for itself: the inner loop over the want entries. */
  method CheckNotWanted(s: seq<byte>, wantCount: nat, mint: Key) returns (ok: bool)
    requires |s| == BASKET_LEN && wantCount <= MAX_LEG
    ensures ok <==> NotWanted(s, wantCount, mint)
  {
    for j := 0 to wantCount
      invariant forall i :: 0 <= i < j ==> WantEntry(s, i).mint != mint
    {
      if WantEntry(s, j).mint == mint {
        return false;
      }
    }
    return true;
  }

  lemma ThreeChecks(a: Op, b: Op, c: Op)
    requires a.Check? && b.Check? && c.Check?
    ensures Verdict([a, b, c]) == if !a.ok then Fail(a.error) else if !b.ok then Fail(b.error)
        else if !c.ok then Fail(c.error) else Pass
  {
    assert [a, b, c] == [a] + ([b] + ([c] + []));
    VerdictCons(c, []);
    VerdictCons(b, [c] + []);
    VerdictCons(a, [b] + ([c] + []));
  }

  /** The three conditions of give leg i. */
  method CheckGive(b: Bank, x: Ix, s: seq<byte>, i: nat) returns (r: Outcome)
    requires PayloadFits(x.data) && |x.accounts| == 6 + x.data[32] * 3 && |s| == BASKET_LEN && i < x.data[32]
    ensures var maker, amount, mint, vault := x.accounts[0], GiveAmount(x.data, i), x.accounts[6 + i * 3],
        x.accounts[6 + i * 3 + 1];
            r == Verdict([Check(amount != 0, InvalidInstructionData),
                Check(NotWanted(s, x.data[33], mint), InvalidArgument),
                          Check(IsLegVault(b.env, maker, KeyAt(x.data, 0), i, vault), InvalidSeeds)])
  {
    hide NotWanted, IsLegVault, Verdict;
    var maker, amount, mint, vault := x.accounts[0], GiveAmount(x.data, i), x.accounts[6 + i * 3],
        x.accounts[6 + i * 3 + 1];
    ThreeChecks(Check(amount != 0, InvalidInstructionData), Check(NotWanted(s, x.data[33], mint), InvalidArgument),
                Check(IsLegVault(b.env, maker, KeyAt(x.data, 0), i, vault), InvalidSeeds));
    if amount == 0 {
      return Fail(InvalidInstructionData);
    }
    var free := CheckNotWanted(s, x.data[33], mint);
    if !free {
      return Fail(InvalidArgument);
    }
    if !IsLegVault(b.env, maker, KeyAt(x.data, 0), i, vault) {
      return Fail(InvalidSeeds);
    }
    return Pass;
  }

  lemma WroteRecord(e: Env, signers: set<Key>, u: World, k: Key, data: seq<byte>, r: Outcome, v: World)
    requires Performed(e, signers, u, [Write(k, data)], r, v)
    ensures r.Pass? ==> v.records == u.records[k := data]
  {
    OneOp(e, signers, u, Write(k, data));
  }

  /** Give entry i, written in place: the mint, then the amount. */
  method RecordGive(b: Bank, signers: set<Key>, basket: Key, i: nat, mint: Key, amount: u64) returns (r: Outcome)
    requires basket in b.records && |b.records[basket]| == BASKET_LEN && i < MAX_LEG
    modifies b`records
    ensures Performed(b.env, signers, old(b.View()), [Write(basket, PutGive(old(b.records[basket]), i, mint, amount))],
        r, b.View())
    ensures r.Pass? ==> b.records == old(b.records)[basket := PutGive(old(b.records[basket]), i, mint, amount)]
  {
    hide Performed, Exec, Put;
    ghost var u := b.View();
    var s := b.Borrow(basket);
    CopyInto(s, B_GIVE + i * ENTRY, mint);
    CopyInto(s, B_GIVE + i * ENTRY + 32, U64Bytes(amount));
    r := b.Release(signers, basket, s);
    WroteRecord(b.env, signers, u, basket, s[..], r, b.View());
  }

  /** Give leg i: check it, create its vault, pull the leg in, record it. */
  method LockOne(b: Bank, x: Ix, basket: Key, i: nat) returns (r: Outcome)
    requires PayloadFits(x.data) && |x.accounts| == 6 + x.data[32] * 3 && i < x.data[32]
    requires basket in b.records && |b.records[basket]| == BASKET_LEN
    modifies b`tokens, b`log, b`records
    ensures Performed(b.env, x.signers, old(b.View()), LockLeg(b.env, x, basket, old(b.records[basket]), i), r,
        b.View())
    ensures r.Pass? ==> b.records == old(b.records)[basket := WithGive(x, old(b.records[basket]), i)]
  {
    hide Performed, Exec, Verdict, NotWanted, IsLegVault, PutGive, GiveAmount, U64At;
    var maker, amount, mint, vault, src := x.accounts[0], GiveAmount(x.data, i), x.accounts[6 + i * 3],
        x.accounts[6 + i * 3 + 1], x.accounts[6 + i * 3 + 2];
    ghost var w, before := b.View(), b.records[basket];
    ghost var all := LockLeg(b.env, x, basket, before, i);
    ghost var checks := [all[0], all[1], all[2]];
    r := CheckGive(b, x, b.records[basket], i);
    VerdictPerformed(b.env, x.signers, w, checks);
    NothingToDo(b.env, x.signers, w);
    Progress(b.env, x.signers, w, [], w, checks, r, w, all);
    if r.Fail? {
      return;
    }
    r := b.TokenInit(x.signers, vault, mint, basket);
    Progress(b.env, x.signers, w, [] + checks, w, [all[3]], r, b.View(), all);
    if r.Fail? {
      return;
    }
    ghost var u := b.View();
    Checked(b.env, x.signers, u, mint in b.env.mints, InvalidAccountData);
    Progress(b.env, x.signers, w, [] + checks + [all[3]], u, [all[4]],
        if mint in b.env.mints then Pass else Fail(InvalidAccountData), u, all);
    if mint !in b.env.mints {
      return Fail(InvalidAccountData);
    }
    r := b.TokenTransfer(x.signers, src, mint, vault, Signer(maker), amount);
    Progress(b.env, x.signers, w, [] + checks + [all[3]] + [all[4]], u, [all[5]], r, b.View(), all);
    if r.Fail? {
      return;
    }
    u := b.View();
    r := RecordGive(b, x.signers, basket, i, mint, amount);
    Progress(b.env, x.signers, w, [] + checks + [all[3]] + [all[4]] + [all[5]], u, [all[6]], r, b.View(), all);
    assert [] + checks + [all[3]] + [all[4]] + [all[5]] + [all[6]] == all;
  }

  /** The give loop of `open_basket`. */
  method LockAll(b: Bank, x: Ix, basket: Key) returns (r: Outcome)
    requires PayloadFits(x.data) && |x.accounts| == 6 + x.data[32] * 3 && basket in b.records
        && |b.records[basket]| == BASKET_LEN
    modifies b`tokens, b`log, b`records
    ensures Performed(b.env, x.signers, old(b.View()), LockOps(b.env, x, basket, old(b.records[basket]), 0), r,
        b.View())
  {
    hide Exec, LockLeg, WithGive;
    ghost var w, all := b.View(), LockOps(b.env, x, basket, b.records[basket], 0);
    var i := 0;
    while i < x.data[32]
      invariant 0 <= i <= x.data[32] && basket in b.records && |b.records[basket]| == BASKET_LEN
      invariant Exec(b.env, x.signers, w, all) == Exec(b.env, x.signers, b.View(),
          LockOps(b.env, x, basket, b.records[basket], i))
    {
      ghost var v, s := b.View(), b.records[basket];
      ExecAppend(b.env, x.signers, v, LockLeg(b.env, x, basket, s, i),
          LockOps(b.env, x, basket, WithGive(x, s, i), i + 1));
      r := LockOne(b, x, basket, i);
      if r.Fail? {
        return;
      }
      i := i + 1;
    }
    NothingToDo(b.env, x.signers, b.View());
    return Pass;
  }

  /** Create the record, write header and wants, then lock every leg. */
  method RecordAndLock(b: Bank, x: Ix, basket: Key, k: Basket) returns (r: Outcome)
    requires PayloadFits(x.data) && |x.accounts| == 6 + x.data[32] * 3
    modifies b
    ensures var s := WithWants(HeaderImage(k), x.data, 0);
            Performed(b.env, x.signers, old(b.View()),
                      [NewRecord(basket, BASKET_LEN)] + WantChecks(x.data, 0) + [Write(basket, s)]
                          + LockOps(b.env, x, basket, s, 0), r, b.View())
  {
    hide Performed, Exec, WithWants, LockOps, WantChecks, HeaderImage, Verdict;
    ghost var w, image := b.View(), WithWants(HeaderImage(k), x.data, 0);
    ghost var create, wants, write, lock := [NewRecord(basket, BASKET_LEN)], WantChecks(x.data, 0),
        [Write(basket, image)], LockOps(b.env, x, basket, image, 0);
    r := b.CreatePda(x.signers, basket, BASKET_LEN);
    if r.Fail? {
      Halt(b.env, x.signers, w, create, wants, r, b.View());
      Halt(b.env, x.signers, w, create + wants, write, r, b.View());
      Halt(b.env, x.signers, w, create + wants + write, lock, r, b.View());
      return;
    }
    ghost var u := b.View();
    var s := b.Borrow(basket);
    r := WriteHeaderAndWants(s, x.data, k);
    VerdictPerformed(b.env, x.signers, u, wants);
    Then(b.env, x.signers, w, create, u, wants, r, u);
    if r.Fail? {
      Halt(b.env, x.signers, w, create + wants, write, r, b.View());
      Halt(b.env, x.signers, w, create + wants + write, lock, r, b.View());
      return;
    }
    r := b.Release(x.signers, basket, s);
    Then(b.env, x.signers, w, create + wants, u, write, r, b.View());
    if r.Fail? {
      Halt(b.env, x.signers, w, create + wants + write, lock, r, b.View());
      return;
    }
    WroteRecord(b.env, x.signers, u, basket, s[..], r, b.View());
    u := b.View();
    r := LockAll(b, x, basket);
    Then(b.env, x.signers, w, create + wants + write, u, lock, r, b.View());
  }

  /** `open_basket`. */
  method OpenBasket(b: Bank, x: Ix) returns (r: Outcome)
    modifies b
    ensures Ran(b.env, old(b.View()), x, Baskets.OpenBasket(b.env, old(b.View()), x), r, b.View())
  {
    hide Performed, Exec, RequireAlias, WithWants, LockOps, WantChecks, HeaderImage;
    var d, a := x.data, x.accounts;
    if !PayloadFits(d) {
      return Fail(InvalidInstructionData);
    }
    var head := HeaderOf(d, ZERO, 0);
    if head.authMode != AUTH_NORMAL && head.authMode != AUTH_BEARER {
      return Fail(InvalidInstructionData);
    }
    if head.authMode == AUTH_BEARER && (head.wantCount != 0 || head.claimAuth == ZERO) {
      return Fail(InvalidArgument);
    }
    if head.expiry <= b.now {
      return Fail(InvalidArgument);
    }
    if |a| != 6 + d[32] * 3 {
      return Fail(NotEnoughAccountKeys);
    }
    var maker, basket := a[0], a[1];
    if maker !in x.signers {
      return Fail(MissingRequiredSignature);
    }
    var gate := RequireAlias(b.env, b.View(), x, a[4]);
    if gate.Shut? {
      return Fail(gate.error);
    }
    var p := Find(b.env.derive, BasketSeed(maker, head.nonce));
    if p.Err? || p.value.key != basket {
      return Fail(InvalidSeeds);
    }
    r := RecordAndLock(b, x, basket, HeaderOf(d, maker, p.value.bump));
  }

  // ---- settling ----

  /** The accounts as before, but for the vaults the first i legs closed. */
  ghost predicate ClosedSoFar(t: map<Key, Token>, u: map<Key, Token>, x: Ix, base: nat, i: nat)
    requires |x.accounts| >= base + i * 3
  {
    && (forall k :: k in u <==> k in t && StillOpen(x, base, i, k))
    && forall k :: k in u && k in t ==> u[k].mint == t[k].mint && u[k].owner == t[k].owner
  }

  lemma FourChecks(a: Op, b: Op, c: Op, d: Op)
    requires a.Check? && b.Check? && c.Check? && d.Check?
    ensures Verdict([a, b, c, d]) ==
            if !a.ok then Fail(a.error) else if !b.ok then Fail(b.error) else if !c.ok then Fail(c.error)
                else if !d.ok then Fail(d.error) else Pass
  {
    assert [a, b, c, d] == [a] + [b, c, d];
    ThreeChecks(b, c, d);
    VerdictCons(a, [b, c, d]);
  }

  /** The conditions of releasing leg i. */
  method CheckUnlock(b: Bank, ghost w: World, x: Ix, s: seq<byte>, nonce: Key, base: nat, auth: Authority,
      payee: Option<Key>, i: nat) returns (r: Outcome)
    requires |s| == BASKET_LEN && |x.accounts| >= base + ReadBasket(s).giveCount * 3 && i < ReadBasket(s).giveCount
        && InRecord(B_GIVE, i)
    requires ClosedSoFar(w.tokens, b.tokens, x, base, i)
    ensures var ops := UnlockLeg(b.env, w, x, s, nonce, base, auth, payee, i);
            |ops| == 6 && ops[0].Check? && ops[1].Check? && ops[2].Check? && ops[3].Check?
                && r == Verdict([ops[0], ops[1], ops[2], ops[3]])
  {
    hide IsLegVault, GiveEntry, ReadBasket, Verdict;
    var mint, vault, dst, entry := x.accounts[base + i * 3], x.accounts[base + i * 3 + 1],
        x.accounts[base + i * 3 + 2], GiveEntry(s, i);
    ghost var ops := UnlockLeg(b.env, w, x, s, nonce, base, auth, payee, i);
    FourChecks(ops[0], ops[1], ops[2], ops[3]);
    if entry.mint != mint {
      return Fail(InvalidArgument);
    }
    if payee.Some? && !IsTokenAccount(b.View(), dst, mint, payee.value) {
      return Fail(InvalidArgument);
    }
    if !IsLegVault(b.env, ReadBasket(s).maker, nonce, i, vault) {
      return Fail(InvalidSeeds);
    }
    if mint !in b.env.mints {
      return Fail(InvalidAccountData);
    }
    return Pass;
  }

  lemma CloseRemoves(e: Env, signers: set<Key>, u: World, vault: Key, auth: Authority, z: World)
    requires Performed(e, signers, u, [CloseToken(vault, auth)], Pass, z)
    ensures z.tokens == u.tokens - {vault}
  {
    OneOp(e, signers, u, CloseToken(vault, auth));
  }

  lemma VaultClosed(e: Env, signers: set<Key>, w: World, v: World, u: World, z: World, x: Ix, base: nat, i: nat,
      mint: Key, dst: Key, auth: Authority, amount: nat)
    requires |x.accounts| >= base + i * 3 + 3 && ClosedSoFar(w.tokens, v.tokens, x, base, i)
    requires Performed(e, signers, v, [Transfer(x.accounts[base + i * 3 + 1], mint, dst, auth, amount)], Pass, u)
    requires Performed(e, signers, u, [CloseToken(x.accounts[base + i * 3 + 1], auth)], Pass, z)
    ensures ClosedSoFar(w.tokens, z.tokens, x, base, i + 1)
  {
    hide Exec, Apply;
    var vault := x.accounts[base + i * 3 + 1];
    TransferKeepsFaces(e, signers, v, vault, mint, dst, auth, amount, Pass, u);
    CloseRemoves(e, signers, u, vault, auth, z);
    forall k
      ensures StillOpen(x, base, i + 1, k) <==> StillOpen(x, base, i, k) && k != vault
    {
    }
  }

  /** Give leg i: the vault releases its recorded amount and is closed. */
  method UnlockOne(b: Bank, ghost w: World, x: Ix, s: seq<byte>, nonce: Key, base: nat, auth: Authority,
      payee: Option<Key>, i: nat) returns (r: Outcome)
    requires |s| == BASKET_LEN && |x.accounts| >= base + ReadBasket(s).giveCount * 3 && i < ReadBasket(s).giveCount
    requires ClosedSoFar(w.tokens, b.tokens, x, base, i)
    modifies b`tokens, b`log
    ensures Performed(b.env, x.signers, old(b.View()), UnlockLeg(b.env, w, x, s, nonce, base, auth, payee, i), r,
        b.View())
    ensures r.Pass? ==> ClosedSoFar(w.tokens, b.tokens, x, base, i + 1)
  {
    hide Performed, Exec, Verdict, IsLegVault, GiveEntry, ReadBasket, IsTokenAccount, ClosedSoFar;
    ghost var v, all := b.View(), UnlockLeg(b.env, w, x, s, nonce, base, auth, payee, i);
    if B_GIVE + i * ENTRY + ENTRY > BASKET_LEN {
      Checked(b.env, x.signers, v, false, InvalidAccountData);
      return Fail(InvalidAccountData);
    }
    var mint, vault, dst, entry := x.accounts[base + i * 3], x.accounts[base + i * 3 + 1],
        x.accounts[base + i * 3 + 2], GiveEntry(s, i);
    r := CheckUnlock(b, w, x, s, nonce, base, auth, payee, i);
    ghost var checks := [all[0], all[1], all[2], all[3]];
    VerdictPerformed(b.env, x.signers, v, checks);
    NothingToDo(b.env, x.signers, v);
    Progress(b.env, x.signers, v, [], v, checks, r, v, all);
    if r.Fail? {
      return;
    }
    r := b.TokenTransfer(x.signers, vault, mint, dst, auth, entry.amount);
    Progress(b.env, x.signers, v, [] + checks, v, [all[4]], r, b.View(), all);
    if r.Fail? {
      return;
    }
    ghost var u := b.View();
    r := b.TokenClose(x.signers, vault, auth);
    Progress(b.env, x.signers, v, [] + checks + [all[4]], u, [all[5]], r, b.View(), all);
    assert [] + checks + [all[4]] + [all[5]] == all;
    if r.Pass? {
      VaultClosed(b.env, x.signers, w, v, u, b.View(), x, base, i, mint, dst, auth, entry.amount);
    }
  }

  lemma NoneClosedYet(t: map<Key, Token>, u: map<Key, Token>, x: Ix, base: nat)
    requires SameFaces(t, u) && |x.accounts| >= base
    ensures ClosedSoFar(t, u, x, base, 0)
  {
  }

  /** The release loop of every basket settle. */
  method UnlockAll(b: Bank, ghost w: World, x: Ix, s: seq<byte>, nonce: Key, base: nat, auth: Authority,
      payee: Option<Key>) returns (r: Outcome)
    requires |s| == BASKET_LEN && |x.accounts| >= base + ReadBasket(s).giveCount * 3 && SameFaces(w.tokens, b.tokens)
    modifies b`tokens, b`log
    ensures Performed(b.env, x.signers, old(b.View()), UnlockOps(b.env, w, x, s, nonce, base, auth, payee, 0), r,
        b.View())
  {
    hide Exec, UnlockLeg, ReadBasket, ClosedSoFar, SameFaces;
    ghost var u, all := b.View(), UnlockOps(b.env, w, x, s, nonce, base, auth, payee, 0);
    NoneClosedYet(w.tokens, b.tokens, x, base);
    var i := 0;
    while i < ReadBasket(s).giveCount
      invariant 0 <= i <= ReadBasket(s).giveCount
      invariant ClosedSoFar(w.tokens, b.tokens, x, base, i)
      invariant Exec(b.env, x.signers, u, all) == Exec(b.env, x.signers, b.View(),
          UnlockOps(b.env, w, x, s, nonce, base, auth, payee, i))
    {
      ExecAppend(b.env, x.signers, b.View(), UnlockLeg(b.env, w, x, s, nonce, base, auth, payee, i),
          UnlockOps(b.env, w, x, s, nonce, base, auth, payee, i + 1));
      r := UnlockOne(b, w, x, s, nonce, base, auth, payee, i);
      if r.Fail? {
        return;
      }
      i := i + 1;
    }
    NothingToDo(b.env, x.signers, b.View());
    return Pass;
  }

  /** Want leg j: check the accounts, skim the fee, pay the maker. */
  method PayOne(b: Bank, ghost w: World, x: Ix, c: Config, s: seq<byte>, nonce: Key, j: nat) returns (r: Outcome)
    requires |s| == BASKET_LEN && j < ReadBasket(s).wantCount && SameFaces(w.tokens, b.tokens)
    requires |x.accounts| == 5 + ReadBasket(s).giveCount * 3 + ReadBasket(s).wantCount * 4
    modifies b`tokens, b`log
    ensures Performed(b.env, x.signers, old(b.View()), PayLeg(b.env, w, x, c, s, nonce, j), r, b.View())
    ensures r.Pass? ==> SameFaces(w.tokens, b.tokens)
  {
    hide Performed, Exec, Verdict, PriceOps, WantEntry, ReadBasket;
    ghost var v, all := b.View(), PayLeg(b.env, w, x, c, s, nonce, j);
    if B_WANT + j * ENTRY + ENTRY > BASKET_LEN {
      Checked(b.env, x.signers, v, false, InvalidAccountData);
      return Fail(InvalidAccountData);
    }
    var at, entry := 5 + ReadBasket(s).giveCount * 3 + j * 4, WantEntry(s, j);
    var mint, takerWant, makerWant, feeAccount := x.accounts[at], x.accounts[at + 1], x.accounts[at + 2],
        x.accounts[at + 3];
    ghost var checks := [Check(entry.mint == mint, InvalidArgument),
        Check(IsTokenAccount(w, makerWant, mint, ReadBasket(s).maker), InvalidArgument),
        Check(mint in b.env.mints, InvalidAccountData)];
    ghost var price := PriceOps(b.env, w, c, takerWant, mint, feeAccount, makerWant, Signer(x.accounts[0]),
        entry.amount, nonce[0]);
    assert all == checks + price;
    ThreeChecks(checks[0], checks[1], checks[2]);
    VerdictPerformed(b.env, x.signers, v, checks);
    if entry.mint != mint {
      r := Fail(InvalidArgument);
      Halt(b.env, x.signers, v, checks, price, r, v);
      return;
    }
    if !IsTokenAccount(b.View(), makerWant, mint, ReadBasket(s).maker) {
      r := Fail(InvalidArgument);
      Halt(b.env, x.signers, v, checks, price, r, v);
      return;
    }
    if mint !in b.env.mints {
      r := Fail(InvalidAccountData);
      Halt(b.env, x.signers, v, checks, price, r, v);
      return;
    }
    r := PayWantLeg(b, x.signers, w, c, takerWant, mint, feeAccount, makerWant, Signer(x.accounts[0]), entry.amount,
        nonce[0]);
    Then(b.env, x.signers, v, checks, v, price, r, b.View());
  }

  /** The want loop of `fill_basket`. */
  method PayAll(b: Bank, ghost w: World, x: Ix, c: Config, s: seq<byte>, nonce: Key) returns (r: Outcome)
    requires |s| == BASKET_LEN && SameFaces(w.tokens, b.tokens)
    requires |x.accounts| == 5 + ReadBasket(s).giveCount * 3 + ReadBasket(s).wantCount * 4
    modifies b`tokens, b`log
    ensures Performed(b.env, x.signers, old(b.View()), PayOps(b.env, w, x, c, s, nonce, 0), r, b.View())
    ensures r.Pass? ==> SameFaces(w.tokens, b.tokens)
  {
    hide Exec, PayLeg, ReadBasket, SameFaces;
    ghost var u, all := b.View(), PayOps(b.env, w, x, c, s, nonce, 0);
    var j := 0;
    while j < ReadBasket(s).wantCount
      invariant 0 <= j <= ReadBasket(s).wantCount
      invariant SameFaces(w.tokens, b.tokens)
      invariant Exec(b.env, x.signers, u, all) == Exec(b.env, x.signers, b.View(), PayOps(b.env, w, x, c, s, nonce, j))
    {
      ExecAppend(b.env, x.signers, b.View(), PayLeg(b.env, w, x, c, s, nonce, j),
          PayOps(b.env, w, x, c, s, nonce, j + 1));
      r := PayOne(b, w, x, c, s, nonce, j);
      if r.Fail? {
        return;
      }
      j := j + 1;
    }
    NothingToDo(b.env, x.signers, b.View());
    return Pass;
  }

  /** Release every leg, then close the record. */
  method UnlockAndClose(b: Bank, ghost w: World, x: Ix, s: seq<byte>, nonce: Key, base: nat, auth: Authority,
      payee: Option<Key>) returns (r: Outcome)
    requires |s| == BASKET_LEN && |x.accounts| >= base + ReadBasket(s).giveCount * 3 && SameFaces(w.tokens, b.tokens)
    modifies b
    ensures Performed(b.env, x.signers, old(b.View()), UnlockOps(b.env, w, x, s, nonce, base, auth, payee, 0)
        + [Wipe(auth.key)], r, b.View())
  {
    hide Performed, Exec, UnlockOps, ReadBasket;
    ghost var u, unlock, wipe := b.View(), UnlockOps(b.env, w, x, s, nonce, base, auth, payee, 0), [Wipe(auth.key)];
    r := UnlockAll(b, w, x, s, nonce, base, auth, payee);
    if r.Fail? {
      Halt(b.env, x.signers, u, unlock, wipe, r, b.View());
      return;
    }
    ghost var v := b.View();
    r := b.Close(x.signers, auth.key);
    Then(b.env, x.signers, u, unlock, v, wipe, r, b.View());
  }

  /** `fill_basket`. */
  method FillBasket(b: Bank, x: Ix) returns (r: Outcome)
    modifies b
    ensures Ran(b.env, old(b.View()), x, Baskets.FillBasket(b.env, old(b.View()), x), r, b.View())
  {
    hide Performed, Exec, PayOps, UnlockOps, ReadBasket, ReadConfig;
    ghost var w := b.View();
    var a := x.accounts;
    if |x.data| != 32 {
      return Fail(InvalidInstructionData);
    }
    if |a| < 5 {
      return Fail(NotEnoughAccountKeys);
    }
    var taker, basket, maker := a[0], a[1], a[2];
    if taker !in x.signers {
      return Fail(MissingRequiredSignature);
    }
    if basket !in b.records {
      return Fail(IllegalOwner);
    }
    var s := b.records[basket];
    if |s| != BASKET_LEN || s[B_STATUS] != STATUS_OPEN {
      return Fail(InvalidAccountData);
    }
    var k := ReadBasket(s);
    if k.authMode != AUTH_NORMAL {
      return Fail(InvalidArgument);
    }
    if k.wantCount == 0 {
      return Fail(InvalidArgument);
    }
    if k.expiry <= b.now {
      return Fail(InvalidArgument);
    }
    if k.taker != ZERO && k.taker != taker {
      return Fail(InvalidArgument);
    }
    if maker != k.maker {
      return Fail(InvalidArgument);
    }
    if Create(b.env.derive, BasketSeed(k.maker, x.data), k.bump) != Some(basket) {
      return Fail(InvalidSeeds);
    }
    if |a| != 5 + k.giveCount * 3 + k.wantCount * 4 {
      return Fail(NotEnoughAccountKeys);
    }
    var c := ReadConfig(b.env, b.View(), a[4]);
    if c.Err? {
      return Fail(c.error);
    }
    var auth := Seeded(basket, BasketSeed(k.maker, x.data), k.bump);
    ghost var pay := PayOps(b.env, w, x, c.value, s, x.data, 0);
    ghost var rest := UnlockOps(b.env, w, x, s, x.data, 5, auth, None, 0) + [Wipe(basket)];
    assert Baskets.FillBasket(b.env, w, x) == Ok(pay + rest) by {
      Reassociate(pay, UnlockOps(b.env, w, x, s, x.data, 5, auth, None, 0), [Wipe(basket)]);
    }
    r := PayAll(b, w, x, c.value, s, x.data);
    if r.Fail? {
      Halt(b.env, x.signers, w, pay, rest, r, b.View());
      return;
    }
    ghost var u := b.View();
    r := UnlockAndClose(b, w, x, s, x.data, 5, auth, None);
    Then(b.env, x.signers, w, pay, u, rest, r, b.View());
  }

  /** `claim_bearer`. */
  method ClaimBearer(b: Bank, x: Ix) returns (r: Outcome)
    modifies b
    ensures Ran(b.env, old(b.View()), x, Baskets.ClaimBearer(b.env, old(b.View()), x), r, b.View())
  {
    hide Performed, Exec, UnlockOps, ReadBasket;
    var a := x.accounts;
    if |x.data| != 32 {
      return Fail(InvalidInstructionData);
    }
    if |a| < 5 {
      return Fail(NotEnoughAccountKeys);
    }
    var payer, bearer, basket, maker := a[0], a[1], a[2], a[3];
    if payer !in x.signers || bearer !in x.signers {
      return Fail(MissingRequiredSignature);
    }
    if basket !in b.records {
      return Fail(IllegalOwner);
    }
    var s := b.records[basket];
    if |s| != BASKET_LEN || s[B_STATUS] != STATUS_OPEN {
      return Fail(InvalidAccountData);
    }
    var k := ReadBasket(s);
    if k.authMode != AUTH_BEARER {
      return Fail(InvalidArgument);
    }
    if b.env.hash(bearer) != k.claimAuth {
      return Fail(InvalidArgument);
    }
    if maker != k.maker {
      return Fail(InvalidArgument);
    }
    if Create(b.env.derive, BasketSeed(k.maker, x.data), k.bump) != Some(basket) {
      return Fail(InvalidSeeds);
    }
    if |a| != 5 + k.giveCount * 3 {
      return Fail(NotEnoughAccountKeys);
    }
    r := UnlockAndClose(b, b.View(), x, s, x.data, 5, Seeded(basket, BasketSeed(k.maker, x.data), k.bump), None);
  }

  /** `rewrap`. */
  method Rewrap(b: Bank, x: Ix) returns (r: Outcome)
    modifies b
    ensures Ran(b.env, old(b.View()), x, Baskets.Rewrap(b.env, old(b.View()), x), r, b.View())
  {
    hide Performed, Exec, ReadBasket, Put;
    var a := x.accounts;
    if |x.data| != 64 {
      return Fail(InvalidInstructionData);
    }
    var claim := KeyAt(x.data, 32);
    if claim == ZERO {
      return Fail(InvalidArgument);
    }
    if |a| != 2 {
      return Fail(NotEnoughAccountKeys);
    }
    var bearer, basket := a[0], a[1];
    if bearer !in x.signers {
      return Fail(MissingRequiredSignature);
    }
    if basket !in b.records {
      return Fail(IllegalOwner);
    }
    if |b.records[basket]| != BASKET_LEN || b.records[basket][B_STATUS] != STATUS_OPEN {
      return Fail(InvalidAccountData);
    }
    var k := ReadBasket(b.records[basket]);
    if k.authMode != AUTH_BEARER {
      return Fail(InvalidAccountData);
    }
    if b.env.hash(bearer) != k.claimAuth {
      return Fail(InvalidArgument);
    }
    var p := Find(b.env.derive, BasketSeed(k.maker, KeyAt(x.data, 0)));
    if p.Err? || p.value.key != basket {
      return Fail(InvalidSeeds);
    }
    var s := b.Borrow(basket);
    CopyInto(s, B_CLAIM_AUTH, claim);
    r := b.Release(x.signers, basket, s);
  }

  /** `cancel_basket`. */
  method CancelBasket(b: Bank, x: Ix) returns (r: Outcome)
    modifies b
    ensures Ran(b.env, old(b.View()), x, Baskets.CancelBasket(b.env, old(b.View()), x), r, b.View())
  {
    hide Performed, Exec, UnlockOps, ReadBasket, Swaps.DelistGate;
    var a := x.accounts;
    if |x.data| != 32 {
      return Fail(InvalidInstructionData);
    }
    if |a| < 6 {
      return Fail(NotEnoughAccountKeys);
    }
    var maker, basket := a[0], a[1];
    if maker !in x.signers {
      return Fail(MissingRequiredSignature);
    }
    if basket !in b.records {
      return Fail(IllegalOwner);
    }
    var s := b.records[basket];
    if |s| != BASKET_LEN || s[B_STATUS] != STATUS_OPEN {
      return Fail(InvalidAccountData);
    }
    var k := ReadBasket(s);
    if k.authMode == AUTH_BEARER {
      return Fail(InvalidArgument);
    }
    if k.maker != maker {
      return Fail(IllegalOwner);
    }
    if Create(b.env.derive, BasketSeed(maker, x.data), k.bump) != Some(basket) {
      return Fail(InvalidSeeds);
    }
    if |a| != 6 + k.giveCount * 3 {
      return Fail(NotEnoughAccountKeys);
    }
    var gate := Swaps.DelistGate(b.env, b.View(), a[3], a[4]);
    if gate.Shut? {
      return Fail(gate.error);
    }
    r := UnlockAndClose(b, b.View(), x, s, x.data, 6, Seeded(basket, BasketSeed(maker, x.data), k.bump), Some(maker));
  }

  /** `expire_basket`. */
  method ExpireBasket(b: Bank, x: Ix) returns (r: Outcome)
    modifies b
    ensures Ran(b.env, old(b.View()), x, Baskets.ExpireBasket(b.env, old(b.View()), x), r, b.View())
  {
    hide Performed, Exec, UnlockOps, ReadBasket;
    var a := x.accounts;
    if |x.data| != 32 {
      return Fail(InvalidInstructionData);
    }
    if |a| < 4 {
      return Fail(NotEnoughAccountKeys);
    }
    var basket, maker := a[1], a[2];
    if basket !in b.records {
      return Fail(IllegalOwner);
    }
    var s := b.records[basket];
    if |s| != BASKET_LEN || s[B_STATUS] != STATUS_OPEN {
      return Fail(InvalidAccountData);
    }
    var k := ReadBasket(s);
    if k.authMode == AUTH_BEARER {
      return Fail(InvalidArgument);
    }
    if b.now < k.expiry {
      return Fail(InvalidArgument);
    }
    if maker != k.maker {
      return Fail(InvalidArgument);
    }
    if Create(b.env.derive, BasketSeed(k.maker, x.data), k.bump) != Some(basket) {
      return Fail(InvalidSeeds);
    }
    if |a| != 4 + k.giveCount * 3 {
      return Fail(NotEnoughAccountKeys);
    }
    r := UnlockAndClose(b, b.View(), x, s, x.data, 4, Seeded(basket, BasketSeed(k.maker, x.data), k.bump),
        Some(k.maker));
  }
}
