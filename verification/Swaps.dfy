/** One-to-one swaps: lock a give, post a want, settle both in one instruction (tags 0-3). */
module Swaps {
  import opened Prelude
  import opened Bytes
  import opened Seeds
  import opened Layout
  import opened Ledger
  import opened FeeConfig
  import opened Payments

  /** open_swap (tag 0): maker | swap | vault | give_mint | want_mint | maker_give | token_program | system | config
      | alias. */
  function OpenSwap(e: Env, w: World, x: Ix): Plan {
    var d := x.data;
    :- Need(|d| == 120, InvalidInstructionData);
    var nonce, give, want, expiry := KeyAt(d, 0), U64At(d, 32), U64At(d, 40), I64At(d, 80);
    :- Need(|x.accounts| == 10, NotEnoughAccountKeys);
    var maker, swap, vault, giveMint, wantMint, makerGive :=
      x.accounts[0], x.accounts[1], x.accounts[2], x.accounts[3], x.accounts[4], x.accounts[5];
    :- Need(maker in x.signers, MissingRequiredSignature);
    :- Need(give != 0 && want != 0, InvalidInstructionData);
    :- Need(w.now < expiry, InvalidArgument);
    :- RequireAlias(e, w, x, x.accounts[8]);
    var s :- Find(e.derive, SwapSeed(maker, nonce));
    :- Need(s.key == swap, InvalidSeeds);
    var v :- Find(e.derive, VaultSeed(maker, nonce));
    :- Need(v.key == vault, InvalidSeeds);
    Ok([NewRecord(swap, SWAP_LEN),
        NewToken(vault, giveMint, swap),
        Check(giveMint in e.mints, InvalidAccountData),
        Transfer(makerGive, giveMint, vault, Signer(maker), give),
        Write(swap, SwapImage(Swap(maker, giveMint, give, wantMint, want, KeyAt(d, 88), KeyAt(d, 48), expiry,
            STATUS_OPEN, s.bump, nonce, ROYALTY_NONE, 0)))])
  }

  /** The vault pays out and closes, then the record is wiped. */
  function ReleaseOps(vault: Key, mint: Key, dst: Key, amount: nat, auth: Authority): seq<Op> {
    [Transfer(vault, mint, dst, auth, amount), CloseToken(vault, auth)]
  }

  /** fill (tag 1): taker | swap | vault | maker | give_mint | want_mint | taker_want | taker_give | maker_want
      | token_program | config | fee_ata | [give_token_program]. */
  function Fill(e: Env, w: World, x: Ix): Plan {
    var d := x.data;
    :- Need(|d| == 48, InvalidInstructionData);
    var nonce, expectGive, maxWant := KeyAt(d, 0), U64At(d, 32), U64At(d, 40);
    :- Need(|x.accounts| >= 12, NotEnoughAccountKeys);
    var taker, swap, vault, maker, giveMint, wantMint := x.accounts[0], x.accounts[1], x.accounts[2], x.accounts[3],
        x.accounts[4], x.accounts[5];
    var takerWant, takerGive, makerWant, config, feeAccount := x.accounts[6], x.accounts[7], x.accounts[8],
        x.accounts[10], x.accounts[11];
    :- Need(taker in x.signers, MissingRequiredSignature);
    :- Need(swap in w.records, IllegalOwner);
    var s :- LoadFillState(w, swap, giveMint, wantMint, taker);
    :- Need(s.giveAmount == expectGive && s.wantAmount <= maxWant, InvalidArgument);
    :- Need(maker == s.maker, InvalidArgument);
    :- Need(Create(e.derive, SwapSeed(s.maker, nonce), s.bump) == Some(swap), InvalidSeeds);
    var v :- Find(e.derive, VaultSeed(s.maker, nonce));
    :- Need(v.key == vault, InvalidSeeds);
    :- Need(IsTokenAccount(w, makerWant, wantMint, s.maker), InvalidArgument);
    :- Need(giveMint in e.mints && wantMint in e.mints, InvalidAccountData);
    var c :- ReadConfig(e, w, config);
    Ok(PriceOps(e, w, c, takerWant, wantMint, feeAccount, makerWant, Signer(taker), s.wantAmount, nonce[0])
       + ReleaseOps(vault, giveMint, takerGive, s.giveAmount, Seeded(swap, SwapSeed(s.maker, nonce), s.bump))
       + [Wipe(swap)])
  }

  /** The checks and effects `cancel_swap` and `expire` share: refund the give-leg to the maker. */
  function RefundAndClose(e: Env, w: World, swap: Key, vault: Key, maker: Key, giveMint: Key, makerGive: Key,
      nonce: Key, s: Swap): Plan {
    if !IsTokenAccount(w, makerGive, giveMint, maker) then Err(InvalidArgument) else
    :- Need(Create(e.derive, SwapSeed(maker, nonce), s.bump) == Some(swap), InvalidSeeds);
    var v :- Find(e.derive, VaultSeed(maker, nonce));
    :- Need(v.key == vault, InvalidSeeds);
    :- Need(giveMint in e.mints, InvalidAccountData);
    Ok(ReleaseOps(vault, giveMint, makerGive, s.giveAmount, Seeded(swap, SwapSeed(maker, nonce), s.bump))
        + [Wipe(swap)])
  }

  /** The delist fee of a voluntary cancel goes to the configured wallet. */
  function DelistGate(e: Env, w: World, config: Key, feeWallet: Key): Gate {
    var c := ReadConfig(e, w, config);
    if c.Err? then Shut(c.error) else Need(c.value.delistFee == 0 || feeWallet == c.value.feeWallet, InvalidArgument)
  }

  /** cancel_swap (tag 2): maker | swap | vault | give_mint | maker_give | token_program | config | fee_wallet
      | system. */
  function CancelSwap(e: Env, w: World, x: Ix): Plan {
    if |x.data| != 32 then Err(InvalidInstructionData) else
    :- Need(|x.accounts| == 9, NotEnoughAccountKeys);
    var maker, swap, vault, giveMint, makerGive := x.accounts[0], x.accounts[1], x.accounts[2], x.accounts[3],
        x.accounts[4];
    :- Need(maker in x.signers, MissingRequiredSignature);
    :- Need(swap in w.records, IllegalOwner);
    var b := w.records[swap];
    :- Need(|b| == SWAP_LEN && b[S_STATUS] == STATUS_OPEN, InvalidAccountData);
    var s := ReadSwap(b);
    :- Need(s.maker == maker, IllegalOwner);
    :- Need(s.giveMint == giveMint, InvalidArgument);
    :- DelistGate(e, w, x.accounts[6], x.accounts[7]);
    RefundAndClose(e, w, swap, vault, maker, giveMint, makerGive, x.data, s)
  }

  /** expire (tag 3): caller | swap | vault | maker | give_mint | maker_give | token_program. Anyone may call it. */
  function Expire(e: Env, w: World, x: Ix): Plan {
    if |x.data| != 32 then Err(InvalidInstructionData) else
    :- Need(|x.accounts| == 7, NotEnoughAccountKeys);
    var swap, vault, maker, giveMint, makerGive := x.accounts[1], x.accounts[2], x.accounts[3], x.accounts[4],
        x.accounts[5];
    :- Need(swap in w.records, IllegalOwner);
    var b := w.records[swap];
    :- Need(|b| == SWAP_LEN && b[S_STATUS] == STATUS_OPEN, InvalidAccountData);
    var s := ReadSwap(b);
    :- Need(s.giveMint == giveMint, InvalidArgument);
    :- Need(s.expiry <= w.now, InvalidArgument);
    :- Need(maker == s.maker, InvalidArgument);
    RefundAndClose(e, w, swap, vault, maker, giveMint, makerGive, x.data, s)
  }
}
