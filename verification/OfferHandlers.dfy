/** The bid handlers as the program runs them. */
module OfferHandlers {
  import opened Prelude
  import opened Bytes
  import opened Seeds
  import opened Layout
  import opened Ledger
  import opened FeeConfig
  import opened Payments
  import opened Bank
  import opened Settle
  import opened SwapHandlers
  import Offers

  /** The writes of `make_offer` into the zeroed account. */
  method WriteOffer(b: Bank, signers: set<Key>, key: Key, o: Offer) returns (r: Outcome)
    requires key in b.records && b.records[key] == Zeros(OFFER_LEN)
    modifies b`records
    ensures Performed(b.env, signers, old(b.View()), [Write(key, OfferImage(o))], r, b.View())
  {
    hide Put, Performed, Exec;
    var st := b.Borrow(key);
    CopyInto(st, O_OFFERER, o.offerer);
    CopyInto(st, O_SWAP, o.swap);
    CopyInto(st, O_WANT_MINT, o.wantMint);
    CopyInto(st, O_WANT_AMT, U64Bytes(o.wantAmount));
    CopyInto(st, O_GIVE_MINT, o.giveMint);
    CopyInto(st, O_GIVE_AMT, U64Bytes(o.giveAmount));
    CopyInto(st, O_EXPIRY, I64Bytes(o.expiry));
    CopyInto(st, O_STATUS, [o.status]);
    CopyInto(st, O_BUMP, [o.bump]);
    CopyInto(st, O_NONCE, o.nonce);
    r := b.Release(signers, key, st);
  }

  /** `make_offer`. */
  method MakeOffer(b: Bank, x: Ix) returns (r: Outcome)
    modifies b
    ensures Ran(b.env, old(b.View()), x, Offers.MakeOffer(b.env, old(b.View()), x), r, b.View())
  {
    hide Performed, Exec, OfferImage, RequireAlias, ReadSwap;
    ghost var w := b.View();
    var d, a := x.data, x.accounts;
    if |d| != 48 {
      return Fail(InvalidInstructionData);
    }
    var nonce, want, expiry := KeyAt(d, 0), U64At(d, 32), I64At(d, 40);
    if |a| != 10 {
      return Fail(NotEnoughAccountKeys);
    }
    var offerer, offer, ovault, wantMint, swap, offererWant := a[0], a[1], a[2], a[3], a[4], a[5];
    if offerer !in x.signers {
      return Fail(MissingRequiredSignature);
    }
    if swap !in b.records {
      return Fail(IllegalOwner);
    }
    if want == 0 {
      return Fail(InvalidInstructionData);
    }
    var gate := RequireAlias(b.env, b.View(), x, a[8]);
    if gate.Shut? {
      return Fail(gate.error);
    }
    var st := b.records[swap];
    if |st| != SWAP_LEN || st[S_STATUS] != STATUS_OPEN {
      return Fail(InvalidAccountData);
    }
    var s := ReadSwap(st);
    if s.wantMint != wantMint {
      return Fail(InvalidArgument);
    }
    var p := Find(b.env.derive, OfferSeed(offerer, nonce));
    if p.Err? || p.value.key != offer {
      return Fail(InvalidSeeds);
    }
    var v := Find(b.env.derive, OVaultSeed(offerer, nonce));
    if v.Err? || v.value.key != ovault {
      return Fail(InvalidSeeds);
    }
    var o := Offer(offerer, swap, wantMint, want, s.giveMint, s.giveAmount, expiry, STATUS_OPEN, p.value.bump, nonce);
    ghost var lock, write := FundOps(b.env, offer, OFFER_LEN, ovault, wantMint, offererWant, offerer, want),
        [Write(offer, OfferImage(o))];
    assert lock + write == [lock[0], lock[1], lock[2], lock[3], write[0]];
    assert Offers.MakeOffer(b.env, w, x) == Ok(lock + write);
    r := LockFunds(b, x.signers, offer, OFFER_LEN, ovault, wantMint, offererWant, offerer, want);
    if r.Fail? {
      Halt(b.env, x.signers, w, lock, write, r, b.View());
      return;
    }
    ghost var u := b.View();
    r := WriteOffer(b, x.signers, offer, o);
    Then(b.env, x.signers, w, lock, u, write, r, b.View());
  }

  /** The goods leave the swap's vault, both vaults close, both records close. */
  method HandOverAndClose(b: Bank, signers: set<Key>, svault: Key, mint: Key, dst: Key, amount: nat,
      swapAuth: Authority, ovault: Key, offerAuth: Authority)
    returns (r: Outcome)
    modifies b
    ensures Performed(b.env, signers, old(b.View()),
                      Offers.HandOver(svault, mint, dst, amount, swapAuth, ovault, offerAuth)
                          + [Wipe(offerAuth.key), Wipe(swapAuth.key)], r, b.View())
  {
    hide Performed, Exec;
    ghost var w := b.View();
    ghost var all := [Transfer(svault, mint, dst, swapAuth, amount), CloseToken(ovault, offerAuth),
        CloseToken(svault, swapAuth), Wipe(offerAuth.key), Wipe(swapAuth.key)];
    assert Offers.HandOver(svault, mint, dst, amount, swapAuth, ovault, offerAuth)
        + [Wipe(offerAuth.key), Wipe(swapAuth.key)] == all;
    NothingToDo(b.env, signers, w);
    r := b.TokenTransfer(signers, svault, mint, dst, swapAuth, amount);
    Progress(b.env, signers, w, [], w, [all[0]], r, b.View(), all);
    if r.Fail? {
      return;
    }
    ghost var u := b.View();
    r := b.TokenClose(signers, ovault, offerAuth);
    Progress(b.env, signers, w, [] + [all[0]], u, [all[1]], r, b.View(), all);
    if r.Fail? {
      return;
    }
    u := b.View();
    r := b.TokenClose(signers, svault, swapAuth);
    Progress(b.env, signers, w, [] + [all[0]] + [all[1]], u, [all[2]], r, b.View(), all);
    if r.Fail? {
      return;
    }
    u := b.View();
    r := b.Close(signers, offerAuth.key);
    Progress(b.env, signers, w, [] + [all[0]] + [all[1]] + [all[2]], u, [all[3]], r, b.View(), all);
    if r.Fail? {
      return;
    }
    u := b.View();
    r := b.Close(signers, swapAuth.key);
    Progress(b.env, signers, w, [] + [all[0]] + [all[1]] + [all[2]] + [all[3]], u, [all[4]], r, b.View(), all);
    assert [] + [all[0]] + [all[1]] + [all[2]] + [all[3]] + [all[4]] == all;
  }

  /** `accept_offer`. */
  method AcceptOffer(b: Bank, x: Ix) returns (r: Outcome)
    modifies b
    ensures Ran(b.env, old(b.View()), x, Offers.AcceptOffer(b.env, old(b.View()), x), r, b.View())
  {
    hide Performed, Exec, PriceOps, Offers.HandOver, ReadSwap, ReadOffer, ReadConfig, IsTokenAccount;
    ghost var w := b.View();
    var d, a := x.data, x.accounts;
    if |d| != 64 {
      return Fail(InvalidInstructionData);
    }
    var snonce, ononce := KeyAt(d, 0), KeyAt(d, 32);
    if |a| != 13 {
      return Fail(NotEnoughAccountKeys);
    }
    var maker, swap, svault, offer, ovault, offerer, giveMint, wantMint := a[0], a[1], a[2], a[3], a[4], a[5], a[6],
        a[7];
    if maker !in x.signers {
      return Fail(MissingRequiredSignature);
    }
    if swap !in b.records || offer !in b.records {
      return Fail(IllegalOwner);
    }
    var sb, ob := b.records[swap], b.records[offer];
    if |sb| != SWAP_LEN || sb[S_STATUS] != STATUS_OPEN {
      return Fail(InvalidAccountData);
    }
    var s := ReadSwap(sb);
    if s.maker != maker {
      return Fail(IllegalOwner);
    }
    if s.giveMint != giveMint || s.wantMint != wantMint {
      return Fail(InvalidArgument);
    }
    if s.expiry <= b.now {
      return Fail(InvalidArgument);
    }
    if |ob| != OFFER_LEN || ob[O_STATUS] != STATUS_OPEN {
      return Fail(InvalidAccountData);
    }
    var o := ReadOffer(ob);
    if o.swap != swap {
      return Fail(InvalidArgument);
    }
    if o.offerer != offerer || o.wantMint != wantMint {
      return Fail(InvalidArgument);
    }
    if o.expiry <= b.now {
      return Fail(InvalidArgument);
    }
    if o.giveMint != giveMint || o.giveAmount != s.giveAmount {
      return Fail(InvalidArgument);
    }
    var sp, svp := Find(b.env.derive, SwapSeed(maker, snonce)), Find(b.env.derive, VaultSeed(maker, snonce));
    var op, ovp := Find(b.env.derive, OfferSeed(offerer, ononce)), Find(b.env.derive, OVaultSeed(offerer, ononce));
    if sp.Err? || svp.Err? || op.Err? || ovp.Err? || sp.value.key != swap || svp.value.key != svault
        || op.value.key != offer || ovp.value.key != ovault {
      return Fail(InvalidSeeds);
    }
    if !IsTokenAccount(b.View(), a[9], wantMint, maker) {
      return Fail(InvalidArgument);
    }
    if !IsTokenAccount(b.View(), a[8], giveMint, offerer) {
      return Fail(InvalidArgument);
    }
    if giveMint !in b.env.mints || wantMint !in b.env.mints {
      return Fail(InvalidAccountData);
    }
    var c := ReadConfig(b.env, b.View(), a[11]);
    if c.Err? {
      return Fail(c.error);
    }
    var offerAuth, swapAuth := Seeded(offer, OfferSeed(offerer, ononce), o.bump),
        Seeded(swap, SwapSeed(maker, snonce), s.bump);
    ghost var pay := PriceOps(b.env, w, c.value, ovault, wantMint, a[12], a[9], offerAuth, o.wantAmount, snonce[0]);
    ghost var hand := Offers.HandOver(svault, giveMint, a[8], s.giveAmount, swapAuth, ovault, offerAuth)
        + [Wipe(offer), Wipe(swap)];
    assert Offers.AcceptOffer(b.env, w, x) == Ok(pay + hand) by {
      Reassociate(pay, Offers.HandOver(svault, giveMint, a[8], s.giveAmount, swapAuth, ovault, offerAuth),
          [Wipe(offer), Wipe(swap)]);
    }
    r := PayWantLeg(b, x.signers, w, c.value, ovault, wantMint, a[12], a[9], offerAuth, o.wantAmount, snonce[0]);
    if r.Fail? {
      Halt(b.env, x.signers, w, pay, hand, r, b.View());
      return;
    }
    ghost var u := b.View();
    r := HandOverAndClose(b, x.signers, svault, giveMint, a[8], s.giveAmount, swapAuth, ovault, offerAuth);
    Then(b.env, x.signers, w, pay, u, hand, r, b.View());
  }

  /** The shared end of both bid refunds. */
  method RefundBid(b: Bank, x: Ix, offer: Key, ovault: Key, offerer: Key, wantMint: Key, offererWant: Key, nonce: Key,
      o: Offer) returns (r: Outcome)
    modifies b
    ensures Ran(b.env, old(b.View()), x, Offers.RefundBid(b.env, old(b.View()), offer, ovault, offerer, wantMint,
        offererWant, nonce, o), r, b.View())
  {
    hide Performed, Exec, IsTokenAccount;
    var op, ovp := Find(b.env.derive, OfferSeed(offerer, nonce)), Find(b.env.derive, OVaultSeed(offerer, nonce));
    if op.Err? || ovp.Err? || op.value.key != offer || ovp.value.key != ovault {
      return Fail(InvalidSeeds);
    }
    if !IsTokenAccount(b.View(), offererWant, wantMint, offerer) {
      return Fail(InvalidArgument);
    }
    if wantMint !in b.env.mints {
      return Fail(InvalidAccountData);
    }
    r := ReleaseAndClose(b, x.signers, ovault, wantMint, offererWant, o.wantAmount,
        Seeded(offer, OfferSeed(offerer, nonce), o.bump));
  }

  /** `withdraw_offer`. */
  method WithdrawOffer(b: Bank, x: Ix) returns (r: Outcome)
    modifies b
    ensures Ran(b.env, old(b.View()), x, Offers.WithdrawOffer(b.env, old(b.View()), x), r, b.View())
  {
    hide Performed, Exec, Offers.RefundBid, ReadOffer;
    var a := x.accounts;
    if |x.data| != 32 {
      return Fail(InvalidInstructionData);
    }
    if |a| != 6 {
      return Fail(NotEnoughAccountKeys);
    }
    var offerer, offer := a[0], a[1];
    if offerer !in x.signers {
      return Fail(MissingRequiredSignature);
    }
    if offer !in b.records {
      return Fail(IllegalOwner);
    }
    var st := b.records[offer];
    if |st| != OFFER_LEN || st[O_STATUS] != STATUS_OPEN {
      return Fail(InvalidAccountData);
    }
    var o := ReadOffer(st);
    if o.offerer != offerer {
      return Fail(IllegalOwner);
    }
    if o.wantMint != a[3] {
      return Fail(InvalidArgument);
    }
    r := RefundBid(b, x, offer, a[2], offerer, a[3], a[4], x.data, o);
  }

  /** `expire_offer`. */
  method ExpireOffer(b: Bank, x: Ix) returns (r: Outcome)
    modifies b
    ensures Ran(b.env, old(b.View()), x, Offers.ExpireOffer(b.env, old(b.View()), x), r, b.View())
  {
    hide Performed, Exec, Offers.RefundBid, ReadOffer;
    var a := x.accounts;
    if |x.data| != 32 {
      return Fail(InvalidInstructionData);
    }
    if |a| != 7 {
      return Fail(NotEnoughAccountKeys);
    }
    var offer, offerer := a[1], a[3];
    if offer !in b.records {
      return Fail(IllegalOwner);
    }
    var st := b.records[offer];
    if |st| != OFFER_LEN || st[O_STATUS] != STATUS_OPEN {
      return Fail(InvalidAccountData);
    }
    var o := ReadOffer(st);
    if o.offerer != offerer {
      return Fail(InvalidArgument);
    }
    if o.wantMint != a[4] {
      return Fail(InvalidArgument);
    }
    if b.now < o.expiry {
      return Fail(InvalidArgument);
    }
    r := RefundBid(b, x, offer, a[2], offerer, a[4], a[5], x.data, o);
  }
}
