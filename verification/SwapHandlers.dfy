/** The one-to-one swap handlers as the program runs them: check, create, write in place, transfer, close. */
module SwapHandlers {
  import opened Prelude
  import opened Bytes
  import opened Seeds
  import opened Layout
  import opened Ledger
  import opened FeeConfig
  import opened Payments
  import opened Bank
  import opened Settle
  import Swaps

  /** The writes of `open_swap` into the zeroed account. */
  method WriteSwap(b: Bank, signers: set<Key>, key: Key, s: Swap) returns (r: Outcome)
    requires key in b.records && b.records[key] == Zeros(SWAP_LEN)
    modifies b`records
    ensures Performed(b.env, signers, old(b.View()), [Write(key, SwapImage(s))], r, b.View())
  {
    hide Put, Performed, Exec;
    var st := b.Borrow(key);
    CopyInto(st, S_MAKER, s.maker);
    CopyInto(st, S_GIVE_MINT, s.giveMint);
    CopyInto(st, S_GIVE_AMT, U64Bytes(s.giveAmount));
    CopyInto(st, S_WANT_MINT, s.wantMint);
    CopyInto(st, S_WANT_AMT, U64Bytes(s.wantAmount));
    CopyInto(st, S_TAKER, s.taker);
    CopyInto(st, S_TERMS, s.terms);
    CopyInto(st, S_EXPIRY, I64Bytes(s.expiry));
    CopyInto(st, S_STATUS, [s.status]);
    CopyInto(st, S_BUMP, [s.bump]);
    CopyInto(st, S_NONCE, s.nonce);
    r := b.Release(signers, key, st);
  }

  /** `open_swap`. */
  method OpenSwap(b: Bank, x: Ix) returns (r: Outcome)
    modifies b
    ensures Ran(b.env, old(b.View()), x, Swaps.OpenSwap(b.env, old(b.View()), x), r, b.View())
  {
    hide Performed, Exec, SwapImage, RequireAlias;
    ghost var w := b.View();
    var d, a := x.data, x.accounts;
    if |d| != 120 {
      return Fail(InvalidInstructionData);
    }
    var nonce, give, want, expiry := KeyAt(d, 0), U64At(d, 32), U64At(d, 40), I64At(d, 80);
    if |a| != 10 {
      return Fail(NotEnoughAccountKeys);
    }
    var maker, swap, vault, giveMint, wantMint, makerGive := a[0], a[1], a[2], a[3], a[4], a[5];
    if maker !in x.signers {
      return Fail(MissingRequiredSignature);
    }
    if give == 0 || want == 0 {
      return Fail(InvalidInstructionData);
    }
    if expiry <= b.now {
      return Fail(InvalidArgument);
    }
    var gate := RequireAlias(b.env, b.View(), x, a[8]);
    if gate.Shut? {
      return Fail(gate.error);
    }
    var p := Find(b.env.derive, SwapSeed(maker, nonce));
    if p.Err? || p.value.key != swap {
      return Fail(InvalidSeeds);
    }
    var v := Find(b.env.derive, VaultSeed(maker, nonce));
    if v.Err? || v.value.key != vault {
      return Fail(InvalidSeeds);
    }
    var s := Swap(maker, giveMint, give, wantMint, want, KeyAt(d, 88), KeyAt(d, 48), expiry, STATUS_OPEN, p.value.bump,
        nonce, ROYALTY_NONE, 0);
    ghost var lock, write := FundOps(b.env, swap, SWAP_LEN, vault, giveMint, makerGive, maker, give),
        [Write(swap, SwapImage(s))];
    assert lock + write == [lock[0], lock[1], lock[2], lock[3], write[0]];
    assert Swaps.OpenSwap(b.env, w, x) == Ok(lock + write);
    r := LockFunds(b, x.signers, swap, SWAP_LEN, vault, giveMint, makerGive, maker, give);
    if r.Fail? {
      Halt(b.env, x.signers, w, lock, write, r, b.View());
      return;
    }
    ghost var u := b.View();
    r := WriteSwap(b, x.signers, swap, s);
    Then(b.env, x.signers, w, lock, u, write, r, b.View());
  }

  /** `fill`. */
  method Fill(b: Bank, x: Ix) returns (r: Outcome)
    modifies b
    ensures Ran(b.env, old(b.View()), x, Swaps.Fill(b.env, old(b.View()), x), r, b.View())
  {
    hide PriceOps, Performed, Exec, IsTokenAccount, ReadSwap, LoadFillState, ReadConfig;
    ghost var w := b.View();
    var d, a := x.data, x.accounts;
    if |d| != 48 {
      return Fail(InvalidInstructionData);
    }
    var nonce, expectGive, maxWant := KeyAt(d, 0), U64At(d, 32), U64At(d, 40);
    if |a| < 12 {
      return Fail(NotEnoughAccountKeys);
    }
    var taker, swap, vault, maker, giveMint, wantMint := a[0], a[1], a[2], a[3], a[4], a[5];
    if taker !in x.signers {
      return Fail(MissingRequiredSignature);
    }
    if swap !in b.records {
      return Fail(IllegalOwner);
    }
    var loaded := LoadFillState(b.View(), swap, giveMint, wantMint, taker);
    if loaded.Err? {
      return Fail(loaded.error);
    }
    var s := loaded.value;
    if s.giveAmount != expectGive || s.wantAmount > maxWant {
      return Fail(InvalidArgument);
    }
    if maker != s.maker {
      return Fail(InvalidArgument);
    }
    if Create(b.env.derive, SwapSeed(s.maker, nonce), s.bump) != Some(swap) {
      return Fail(InvalidSeeds);
    }
    var v := Find(b.env.derive, VaultSeed(s.maker, nonce));
    if v.Err? || v.value.key != vault {
      return Fail(InvalidSeeds);
    }
    if !IsTokenAccount(b.View(), a[8], wantMint, s.maker) {
      return Fail(InvalidArgument);
    }
    if giveMint !in b.env.mints || wantMint !in b.env.mints {
      return Fail(InvalidAccountData);
    }
    var c := ReadConfig(b.env, b.View(), a[10]);
    if c.Err? {
      return Fail(c.error);
    }
    var auth := Seeded(swap, SwapSeed(s.maker, nonce), s.bump);
    ghost var pay := PriceOps(b.env, w, c.value, a[6], wantMint, a[11], a[8], Signer(taker), s.wantAmount, nonce[0]);
    ghost var release, wipe := Swaps.ReleaseOps(vault, giveMint, a[7], s.giveAmount, auth), [Wipe(swap)];
    assert Swaps.Fill(b.env, w, x) == Ok(pay + release + wipe);
    r := PayWantLeg(b, x.signers, w, c.value, a[6], wantMint, a[11], a[8], Signer(taker), s.wantAmount, nonce[0]);
    if r.Fail? {
      Halt(b.env, x.signers, w, pay, release, r, b.View());
      Halt(b.env, x.signers, w, pay + release, wipe, r, b.View());
      return;
    }
    ghost var u := b.View();
    r := ReleaseVault(b, x.signers, vault, giveMint, a[7], s.giveAmount, auth);
    Then(b.env, x.signers, w, pay, u, release, r, b.View());
    if r.Fail? {
      Halt(b.env, x.signers, w, pay + release, wipe, r, b.View());
      return;
    }
    u := b.View();
    r := b.Close(x.signers, swap);
    Then(b.env, x.signers, w, pay + release, u, wipe, r, b.View());
  }

  /** The vault pays out and closes, then the record closes. */
  method ReleaseAndClose(b: Bank, signers: set<Key>, vault: Key, mint: Key, dst: Key, amount: nat, auth: Authority)
      returns (r: Outcome)
    modifies b
    ensures Performed(b.env, signers, old(b.View()), Swaps.ReleaseOps(vault, mint, dst, amount, auth)
        + [Wipe(auth.key)], r, b.View())
  {
    hide Performed, Exec;
    ghost var w, release, wipe := b.View(), Swaps.ReleaseOps(vault, mint, dst, amount, auth), [Wipe(auth.key)];
    r := ReleaseVault(b, signers, vault, mint, dst, amount, auth);
    if r.Fail? {
      Halt(b.env, signers, w, release, wipe, r, b.View());
      return;
    }
    ghost var u := b.View();
    r := b.Close(signers, auth.key);
    Then(b.env, signers, w, release, u, wipe, r, b.View());
  }

  /** `refund_and_close`. */
  method RefundAndClose(b: Bank, x: Ix, swap: Key, vault: Key, maker: Key, giveMint: Key, makerGive: Key, nonce: Key,
      s: Swap) returns (r: Outcome)
    modifies b
    ensures Ran(b.env, old(b.View()), x, Swaps.RefundAndClose(b.env, old(b.View()), swap, vault, maker, giveMint,
        makerGive, nonce, s), r, b.View())
  {
    hide Performed, Exec, IsTokenAccount;
    if !IsTokenAccount(b.View(), makerGive, giveMint, maker) {
      return Fail(InvalidArgument);
    }
    if Create(b.env.derive, SwapSeed(maker, nonce), s.bump) != Some(swap) {
      return Fail(InvalidSeeds);
    }
    var v := Find(b.env.derive, VaultSeed(maker, nonce));
    if v.Err? || v.value.key != vault {
      return Fail(InvalidSeeds);
    }
    if giveMint !in b.env.mints {
      return Fail(InvalidAccountData);
    }
    r := ReleaseAndClose(b, x.signers, vault, giveMint, makerGive, s.giveAmount,
        Seeded(swap, SwapSeed(maker, nonce), s.bump));
  }

  /** `cancel_swap`. */
  method CancelSwap(b: Bank, x: Ix) returns (r: Outcome)
    modifies b
    ensures Ran(b.env, old(b.View()), x, Swaps.CancelSwap(b.env, old(b.View()), x), r, b.View())
  {
    hide Performed, Exec, Swaps.RefundAndClose, Swaps.DelistGate, ReadSwap;
    var a := x.accounts;
    if |x.data| != 32 {
      return Fail(InvalidInstructionData);
    }
    if |a| != 9 {
      return Fail(NotEnoughAccountKeys);
    }
    var maker, swap, giveMint := a[0], a[1], a[3];
    if maker !in x.signers {
      return Fail(MissingRequiredSignature);
    }
    if swap !in b.records {
      return Fail(IllegalOwner);
    }
    var st := b.records[swap];
    if |st| != SWAP_LEN || st[S_STATUS] != STATUS_OPEN {
      return Fail(InvalidAccountData);
    }
    var s := ReadSwap(st);
    if s.maker != maker {
      return Fail(IllegalOwner);
    }
    if s.giveMint != giveMint {
      return Fail(InvalidArgument);
    }
    var gate := Swaps.DelistGate(b.env, b.View(), a[6], a[7]);
    if gate.Shut? {
      return Fail(gate.error);
    }
    r := RefundAndClose(b, x, swap, a[2], maker, giveMint, a[4], x.data, s);
  }

  /** `expire`. */
  method Expire(b: Bank, x: Ix) returns (r: Outcome)
    modifies b
    ensures Ran(b.env, old(b.View()), x, Swaps.Expire(b.env, old(b.View()), x), r, b.View())
  {
    hide Performed, Exec, Swaps.RefundAndClose, ReadSwap;
    var a := x.accounts;
    if |x.data| != 32 {
      return Fail(InvalidInstructionData);
    }
    if |a| != 7 {
      return Fail(NotEnoughAccountKeys);
    }
    var swap, maker, giveMint := a[1], a[3], a[4];
    if swap !in b.records {
      return Fail(IllegalOwner);
    }
    var st := b.records[swap];
    if |st| != SWAP_LEN || st[S_STATUS] != STATUS_OPEN {
      return Fail(InvalidAccountData);
    }
    var s := ReadSwap(st);
    if s.giveMint != giveMint {
      return Fail(InvalidArgument);
    }
    if b.now < s.expiry {
      return Fail(InvalidArgument);
    }
    if maker != s.maker {
      return Fail(InvalidArgument);
    }
    r := RefundAndClose(b, x, swap, a[2], maker, giveMint, a[5], x.data, s);
  }
}
