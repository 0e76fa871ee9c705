/** The listing handlers as the program runs them: approve or revoke the delegate, write in place, sell. */
module ListingHandlers {
  import opened Prelude
  import opened Bytes
  import opened Seeds
  import opened Layout
  import opened Ledger
  import opened FeeConfig
  import opened Payments
  import opened Bank
  import opened Settle
  import Listings
  import Swaps

  /** The writes of `list` into the zeroed account. */
  method WriteListing(b: Bank, signers: set<Key>, key: Key, s: Swap) returns (r: Outcome)
    requires key in b.records && b.records[key] == Zeros(SWAP_LEN)
    modifies b`records
    ensures Performed(b.env, signers, old(b.View()), [Write(key, ListingImage(s))], r, b.View())
  {
    hide Put, Performed, Exec;
    var st := b.Borrow(key);
    CopyInto(st, S_MAKER, s.maker);
    CopyInto(st, S_GIVE_MINT, s.giveMint);
    CopyInto(st, S_GIVE_AMT, U64Bytes(s.giveAmount));
    CopyInto(st, S_ROYALTY_MODE, [s.royaltyMode]);
    CopyInto(st, S_MAKER_PCT, [s.makerPct]);
    CopyInto(st, S_WANT_MINT, s.wantMint);
    CopyInto(st, S_WANT_AMT, U64Bytes(s.wantAmount));
    CopyInto(st, S_TAKER, s.taker);
    CopyInto(st, S_TERMS, s.terms);
    CopyInto(st, S_EXPIRY, I64Bytes(s.expiry));
    CopyInto(st, S_STATUS, [s.status]);
    CopyInto(st, S_BUMP, [s.bump]);
    CopyInto(st, S_NONCE, s.nonce);
    r := b.Release(signers, key, st);
  }

  /** `list`. */
  method List(b: Bank, x: Ix) returns (r: Outcome)
    modifies b
    ensures Ran(b.env, old(b.View()), x, Listings.List(b.env, old(b.View()), x), r, b.View())
  {
    hide Performed, Exec, ListingImage, RequireAlias, IsTokenAccount;
    ghost var w := b.View();
    var d, a := x.data, x.accounts;
    if |d| != 122 {
      return Fail(InvalidInstructionData);
    }
    var nonce, give, want, expiry, mode, pct := KeyAt(d, 0), U64At(d, 32), U64At(d, 40), I64At(d, 80), d[120], d[121];
    if mode > ROYALTY_SPLIT || pct > 100 {
      return Fail(InvalidInstructionData);
    }
    if |a| != 9 {
      return Fail(NotEnoughAccountKeys);
    }
    var maker, listing, giveMint, wantMint, makerGive := a[0], a[1], a[2], a[3], a[4];
    if maker !in x.signers {
      return Fail(MissingRequiredSignature);
    }
    if give == 0 || want == 0 {
      return Fail(InvalidInstructionData);
    }
    if expiry <= b.now {
      return Fail(InvalidArgument);
    }
    if !IsTokenAccount(b.View(), makerGive, giveMint, maker) {
      return Fail(InvalidArgument);
    }
    var gate := RequireAlias(b.env, b.View(), x, a[7]);
    if gate.Shut? {
      return Fail(gate.error);
    }
    var p := Find(b.env.derive, ListingSeed(maker, nonce));
    if p.Err? || p.value.key != listing {
      return Fail(InvalidSeeds);
    }
    var s := Swap(maker, giveMint, give, wantMint, want, KeyAt(d, 88), KeyAt(d, 48), expiry, STATUS_OPEN, p.value.bump,
        nonce, mode, pct);
    ghost var all := [NewRecord(listing, SWAP_LEN), Approve(makerGive, listing, Signer(maker), give),
        Write(listing, ListingImage(s))];
    assert Listings.List(b.env, w, x) == Ok(all);
    NothingToDo(b.env, x.signers, w);
    r := b.CreatePda(x.signers, listing, SWAP_LEN);
    Progress(b.env, x.signers, w, [], w, [all[0]], r, b.View(), all);
    if r.Fail? {
      return;
    }
    ghost var u := b.View();
    r := b.TokenApprove(x.signers, makerGive, listing, Signer(maker), give);
    Progress(b.env, x.signers, w, [] + [all[0]], u, [all[1]], r, b.View(), all);
    if r.Fail? {
      return;
    }
    u := b.View();
    r := WriteListing(b, x.signers, listing, s);
    Progress(b.env, x.signers, w, [] + [all[0]] + [all[1]], u, [all[2]], r, b.View(), all);
    assert [] + [all[0]] + [all[1]] + [all[2]] == all;
  }

  /** `fill_listing`. */
  method FillListing(b: Bank, x: Ix) returns (r: Outcome)
    modifies b
    ensures Ran(b.env, old(b.View()), x, Listings.FillListing(b.env, old(b.View()), x), r, b.View())
  {
    hide RoyaltyOps, Performed, Exec, IsTokenAccount, ReadSwap, LoadFillState, ReadConfig;
    ghost var w := b.View();
    var d, a := x.data, x.accounts;
    if |d| != 48 {
      return Fail(InvalidInstructionData);
    }
    var nonce, expectGive, maxWant := KeyAt(d, 0), U64At(d, 32), U64At(d, 40);
    if |a| < 12 {
      return Fail(NotEnoughAccountKeys);
    }
    var taker, listing, maker, giveMint, wantMint := a[0], a[1], a[2], a[3], a[4];
    if taker !in x.signers {
      return Fail(MissingRequiredSignature);
    }
    if listing !in b.records {
      return Fail(IllegalOwner);
    }
    var loaded := LoadFillState(b.View(), listing, giveMint, wantMint, taker);
    if loaded.Err? {
      return Fail(loaded.error);
    }
    var s := loaded.value;
    if s.giveAmount != expectGive {
      return Fail(InvalidArgument);
    }
    if maker != s.maker {
      return Fail(InvalidArgument);
    }
    if Create(b.env.derive, ListingSeed(s.maker, nonce), s.bump) != Some(listing) {
      return Fail(InvalidSeeds);
    }
    if !IsTokenAccount(b.View(), a[5], giveMint, s.maker) {
      return Fail(InvalidArgument);
    }
    if !IsTokenAccount(b.View(), a[8], wantMint, s.maker) {
      return Fail(InvalidArgument);
    }
    if giveMint !in b.env.mints || wantMint !in b.env.mints {
      return Fail(InvalidAccountData);
    }
    var plain := s.royaltyMode == ROYALTY_NONE;
    if !plain && |a| < 14 {
      return Fail(NotEnoughAccountKeys);
    }
    var metadata := if plain then None else Some(x.metadata);
    var creators := if plain then [] else a[14..];
    var auth := Seeded(listing, ListingSeed(s.maker, nonce), s.bump);
    ghost var plan := RoyaltyOps(b.env, w, a[10], a[7], wantMint, a[11], a[8], taker, s.wantAmount, maxWant, nonce[0],
        s.royaltyMode, s.makerPct, metadata, creators);
    ghost var move, wipe := Transfer(a[5], giveMint, a[6], auth, s.giveAmount), Wipe(listing);
    assert Listings.FillListing(b.env, w, x) == (if plan.Ok? then Ok(plan.value + [move, wipe]) else plan);
    r := PayWantAndRoyalty(b, x.signers, w, a[10], a[7], wantMint, a[11], a[8], taker, s.wantAmount, maxWant, nonce[0],
        s.royaltyMode, s.makerPct, metadata, creators);
    if r.Fail? {
      if plan.Ok? {
        Halt(b.env, x.signers, w, plan.value, [move, wipe], r, b.View());
      }
      return;
    }
    ghost var pay := plan.value;
    assert pay + [move, wipe] == pay + [move] + [wipe];
    ghost var u := b.View();
    r := b.TokenTransfer(x.signers, a[5], giveMint, a[6], auth, s.giveAmount);
    Then(b.env, x.signers, w, pay, u, [move], r, b.View());
    if r.Fail? {
      Halt(b.env, x.signers, w, pay + [move], [wipe], r, b.View());
      return;
    }
    u := b.View();
    r := b.Close(x.signers, listing);
    Then(b.env, x.signers, w, pay + [move], u, [wipe], r, b.View());
  }

  /** `cancel_listing`. */
  method CancelListing(b: Bank, x: Ix) returns (r: Outcome)
    modifies b
    ensures Ran(b.env, old(b.View()), x, Listings.CancelListing(b.env, old(b.View()), x), r, b.View())
  {
    hide Performed, Exec, IsTokenAccount, ReadSwap, Swaps.DelistGate;
    ghost var w := b.View();
    var a := x.accounts;
    if |x.data| != 32 {
      return Fail(InvalidInstructionData);
    }
    if |a| != 8 {
      return Fail(NotEnoughAccountKeys);
    }
    var maker, listing, giveMint, makerGive := a[0], a[1], a[2], a[3];
    if maker !in x.signers {
      return Fail(MissingRequiredSignature);
    }
    if listing !in b.records {
      return Fail(IllegalOwner);
    }
    var st := b.records[listing];
    if |st| != SWAP_LEN || st[S_STATUS] != STATUS_OPEN {
      return Fail(InvalidAccountData);
    }
    var s := ReadSwap(st);
    if s.maker != maker {
      return Fail(IllegalOwner);
    }
    if s.giveMint != giveMint {
      return Fail(InvalidArgument);
    }
    if !IsTokenAccount(b.View(), makerGive, giveMint, maker) {
      return Fail(InvalidArgument);
    }
    var p := Find(b.env.derive, ListingSeed(maker, x.data));
    if p.Err? || p.value.key != listing {
      return Fail(InvalidSeeds);
    }
    var gate := Swaps.DelistGate(b.env, b.View(), a[5], a[6]);
    if gate.Shut? {
      return Fail(gate.error);
    }
    ghost var revoke, wipe := [Revoke(makerGive, Signer(maker))], [Wipe(listing)];
    assert revoke + wipe == [revoke[0], wipe[0]];
    r := b.TokenRevoke(x.signers, makerGive, Signer(maker));
    if r.Fail? {
      Halt(b.env, x.signers, w, revoke, wipe, r, b.View());
      return;
    }
    ghost var u := b.View();
    r := b.Close(x.signers, listing);
    Then(b.env, x.signers, w, revoke, u, wipe, r, b.View());
  }

  /** `expire_listing`. */
  method ExpireListing(b: Bank, x: Ix) returns (r: Outcome)
    modifies b
    ensures Ran(b.env, old(b.View()), x, Listings.ExpireListing(b.env, old(b.View()), x), r, b.View())
  {
    hide Performed, Exec, ReadSwap;
    var a := x.accounts;
    if |x.data| != 32 {
      return Fail(InvalidInstructionData);
    }
    if |a| != 3 {
      return Fail(NotEnoughAccountKeys);
    }
    var caller, listing, maker := a[0], a[1], a[2];
    if caller !in x.signers {
      return Fail(MissingRequiredSignature);
    }
    if listing !in b.records {
      return Fail(IllegalOwner);
    }
    var st := b.records[listing];
    if |st| != SWAP_LEN || st[S_STATUS] != STATUS_OPEN {
      return Fail(InvalidAccountData);
    }
    var s := ReadSwap(st);
    if b.now < s.expiry {
      return Fail(InvalidArgument);
    }
    if maker != s.maker {
      return Fail(InvalidArgument);
    }
    var p := Find(b.env.derive, ListingSeed(s.maker, x.data));
    if p.Err? || p.value.key != listing {
      return Fail(InvalidSeeds);
    }
    r := b.Close(x.signers, listing);
  }
}
