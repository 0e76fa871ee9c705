/** The shared payment legs, performed one transfer at a time. */
module Settle {
  import opened Prelude
  import opened Bytes
  import opened Layout
  import opened Ledger
  import opened FeeConfig
  import opened Royalty
  import opened Payments
  import opened Bank
  import Swaps

  /** The handler did what its plan says, or refused with the plan's error. */
  ghost predicate Ran(e: Env, w: World, x: Ix, plan: Plan, r: Outcome, v: World) {
    if plan.Err? then r == Fail(plan.error) else Performed(e, x.signers, w, plan.value, r, v)
  }

  lemma SameDestination(e: Env, w: World, v: World, account: Key, mint: Key, c: Config, shardSeed: byte)
    requires SameFaces(w.tokens, v.tokens)
    ensures IsFeeDestination(e, w, account, mint, c, shardSeed) <==> IsFeeDestination(e, v, account, mint, c, shardSeed)
  {
  }

  /** The fee skim: verify the destination, then transfer. */
  method PayFee(b: Bank, signers: set<Key>, ghost w: World, c: Config, src: Key, mint: Key, feeAccount: Key,
      auth: Authority, amount: nat, shardSeed: byte)
    returns (r: Outcome)
    requires SameFaces(w.tokens, b.tokens)
    modifies b`tokens, b`log
    ensures Performed(b.env, signers, old(b.View()), FeeLeg(b.env, w, c, src, mint, feeAccount, auth, amount,
        shardSeed), r, b.View())
    ensures r.Pass? ==> SameFaces(w.tokens, b.tokens)
  {
    hide IsFeeDestination, Exec, Performed, Bps;
    ghost var u := b.View();
    var fee := Bps(amount, c.feeBps);
    if fee == 0 {
      NothingToDo(b.env, signers, u);
      return Pass;
    }
    SameDestination(b.env, w, u, feeAccount, mint, c, shardSeed);
    var ok := IsFeeDestination(b.env, b.View(), feeAccount, mint, c, shardSeed);
    ghost var check, move := Check(ok, InvalidArgument), Transfer(src, mint, feeAccount, auth, fee);
    Checked(b.env, signers, u, ok, InvalidArgument);
    assert FeeLeg(b.env, w, c, src, mint, feeAccount, auth, amount, shardSeed) == [check] + [move];
    if !ok {
      r := Fail(InvalidArgument);
      Halt(b.env, signers, u, [check], [move], r, u);
      return;
    }
    r := b.TokenTransfer(signers, src, mint, feeAccount, auth, fee);
    Then(b.env, signers, u, [check], u, [move], r, b.View());
    if r.Pass? {
      TransferKeepsFaces(b.env, signers, u, src, mint, feeAccount, auth, fee, r, b.View());
    }
  }

  /** `pay_want_leg` and `pay_coins_via_delegate`: the fee to the fee destination, the rest to the payee. */
  method PayWantLeg(b: Bank, signers: set<Key>, ghost w: World, c: Config, src: Key, mint: Key, feeAccount: Key,
      payee: Key, auth: Authority, amount: nat, shardSeed: byte)
    returns (r: Outcome)
    requires SameFaces(w.tokens, b.tokens)
    modifies b`tokens, b`log
    ensures Performed(b.env, signers, old(b.View()), PriceOps(b.env, w, c, src, mint, feeAccount, payee, auth, amount,
        shardSeed), r, b.View())
    ensures r.Pass? ==> SameFaces(w.tokens, b.tokens)
  {
    hide FeeLeg, Exec, Performed, Bps;
    ghost var u := b.View();
    var fee := Bps(amount, c.feeBps);
    ghost var skim := FeeLeg(b.env, w, c, src, mint, feeAccount, auth, amount, shardSeed);
    ghost var check, move := Check(fee <= amount, ArithmeticOverflow),
        Transfer(src, mint, payee, auth, Minus(amount, fee));
    assert PriceOps(b.env, w, c, src, mint, feeAccount, payee, auth, amount, shardSeed) == skim + [check] + [move];
    r := PayFee(b, signers, w, c, src, mint, feeAccount, auth, amount, shardSeed);
    if r.Fail? {
      Halt(b.env, signers, u, skim, [check], r, b.View());
      Halt(b.env, signers, u, skim + [check], [move], r, b.View());
      return;
    }
    ghost var u1 := b.View();
    Checked(b.env, signers, u1, fee <= amount, ArithmeticOverflow);
    if amount < fee {
      r := Fail(ArithmeticOverflow);
      Then(b.env, signers, u, skim, u1, [check], r, u1);
      Halt(b.env, signers, u, skim + [check], [move], r, u1);
      return;
    }
    Then(b.env, signers, u, skim, u1, [check], Pass, u1);
    r := b.TokenTransfer(signers, src, mint, payee, auth, amount - fee);
    Then(b.env, signers, u, skim + [check], u1, [move], r, b.View());
    if r.Pass? {
      TransferKeepsFaces(b.env, signers, u1, src, mint, payee, auth, amount - fee, r, b.View());
    }
  }

  /** The creator loop of `pay_want_and_royalty`: one transfer for every positive payout, in order. */
  method PayCreators(b: Bank, signers: set<Key>, src: Key, mint: Key, auth: Authority, payouts: seq<nat>,
      accounts: seq<Key>) returns (r: Outcome)
    requires |payouts| == |accounts|
    modifies b`tokens, b`log
    ensures Performed(b.env, signers, old(b.View()), CreatorOps(src, mint, auth, payouts, accounts), r, b.View())
  {
    hide Exec;
    ghost var u, all := b.View(), CreatorOps(src, mint, auth, payouts, accounts);
    var i := 0;
    while i < |accounts|
      invariant 0 <= i <= |accounts|
      invariant Exec(b.env, signers, u, all) == Exec(b.env, signers, b.View(),
          CreatorOps(src, mint, auth, payouts[i..], accounts[i..]))
    {
      ghost var v, rest := b.View(), CreatorOps(src, mint, auth, payouts[i + 1..], accounts[i + 1..]);
      assert payouts[i..][1..] == payouts[i + 1..] && accounts[i..][1..] == accounts[i + 1..];
      if payouts[i] > 0 {
        ExecAppend(b.env, signers, v, [Transfer(src, mint, accounts[i], auth, payouts[i])], rest);
        r := b.TokenTransfer(signers, src, mint, accounts[i], auth, payouts[i]);
        if r.Fail? {
          return;
        }
      } else {
        assert [] + rest == rest;
      }
      i := i + 1;
    }
    NothingToDo(b.env, signers, b.View());
    return Pass;
  }

  lemma {:induction false} PercentsSoFar(shares: seq<Share>, i: nat)
    requires i < |shares|
    ensures PercentSum(Percentages(shares)[..i + 1]) == PercentSum(Percentages(shares)[..i]) + shares[i].percent
  {
    var p := Percentages(shares);
    assert p[..i + 1] == p[..i] + [p[i]];
    PercentSumSplit(p[..i], [p[i]]);
    assert [p[i]][1..] == [] && PercentSum([p[i]]) == p[i] + PercentSum([]);
  }

  /** Resolve the royalty from the metadata account: parse it, require a declared royalty whose shares sum
      to 100, and compute the maker's part. */
  method ResolveRoyalty(metadata: Option<MetadataAccount>, mode: byte, pct: byte, want: nat)
      returns (r: Result<RoyaltyBill>)
    requires mode != ROYALTY_NONE
    ensures r == Bill(metadata, mode, pct, want)
  {
    hide RoyaltyTerms, Bps;
    if metadata.None? {
      return Err(NotEnoughAccountKeys);
    }
    if metadata.value.Foreign? {
      return Err(IllegalOwner);
    }
    if metadata.value.Misplaced? {
      return Err(InvalidArgument);
    }
    var t := ParseTmRoyalty(metadata.value.data);
    if t.Err? {
      return Err(t.error);
    }
    var shares := t.value.shares;
    if t.value.bps == 0 || shares == [] {
      return Err(InvalidArgument);
    }
    var sum := 0;
    for i := 0 to |shares|
      invariant sum == PercentSum(Percentages(shares)[..i])
    {
      PercentsSoFar(shares, i);
      sum := sum + shares[i].percent;
    }
    assert Percentages(shares)[..|shares|] == Percentages(shares);
    if sum != 100 {
      return Err(InvalidArgument);
    }
    var royalty := Bps(want, t.value.bps);
    var makerShare := MakerShare(mode, pct, royalty);
    if makerShare.Err? {
      return Err(makerShare.error);
    }
    return Ok(RoyaltyBill(royalty, makerShare.value, shares));
  }

  /** Each creator account must be the want-mint account of the matching creator. */
  method CheckCreators(b: Bank, ghost w: World, mint: Key, shares: seq<Share>, accounts: seq<Key>) returns (ok: bool)
    requires |accounts| == |shares| && SameFaces(w.tokens, b.tokens)
    ensures ok <==> CreatorsMatch(w, mint, shares, accounts)
  {
    for i := 0 to |shares|
      invariant forall k :: 0 <= k < i ==> IsTokenAccount(w, accounts[k], mint, shares[k].creator)
    {
      if !IsTokenAccount(b.View(), accounts[i], mint, shares[i].creator) {
        return false;
      }
    }
    return true;
  }

  lemma BillFits(metadata: Option<MetadataAccount>, mode: byte, pct: byte, want: nat, bill: RoyaltyBill)
    requires mode != ROYALTY_NONE && Bill(metadata, mode, pct, want) == Ok(bill)
    ensures bill.royalty < U64 && |bill.shares| <= MAX_CREATORS && PercentSum(Percentages(bill.shares)) == 100
  {
    hide PercentSum, MakerShare, Print;
    ParseExact(metadata.value.data);
  }

  /** The royalty leg: the dust-safe split, then one transfer for every positive payout. */
  method PayRoyalty(b: Bank, signers: set<Key>, src: Key, mint: Key, auth: Authority, bill: RoyaltyBill,
      creators: seq<Key>) returns (r: Outcome)
    requires Payable(bill, creators) && bill.royalty < U64 && |bill.shares| <= MAX_CREATORS
    modifies b`tokens, b`log
    ensures Performed(b.env, signers, old(b.View()), RoyaltyLeg(src, mint, auth, bill, creators), r, b.View())
  {
    hide Performed, Exec, PercentSum, Splits;
    if bill.royalty == 0 {
      NothingToDo(b.env, signers, b.View());
      return Pass;
    }
    var splits := SplitByShare(bill.royalty, Percentages(bill.shares));
    r := PayCreators(b, signers, src, mint, auth, splits[..|bill.shares|], creators);
  }

  lemma NoneBill(metadata: Option<MetadataAccount>, mode: byte, pct: byte, want: nat)
    ensures mode == ROYALTY_NONE ==> Bill(metadata, mode, pct, want) == Ok(NO_ROYALTY)
  {
  }

  /** `pay_want_and_royalty`: resolve the royalty, bound the taker's total, then pay the fee, the maker and
      the creators, all from the taker's account. */
  method PayWantAndRoyalty(b: Bank, signers: set<Key>, ghost w: World, config: Key, src: Key, mint: Key,
      feeAccount: Key, maker: Key, taker: Key,
                           want: nat, maxWant: nat, shardSeed: byte, mode: byte, pct: byte,
                               metadata: Option<MetadataAccount>, creators: seq<Key>)
    returns (r: Outcome)
    requires SameFaces(w.tokens, b.tokens) && ReadConfig(b.env, b.View(), config) == ReadConfig(b.env, w, config)
    modifies b`tokens, b`log
    ensures var plan := RoyaltyOps(b.env, w, config, src, mint, feeAccount, maker, taker, want, maxWant, shardSeed,
        mode, pct, metadata, creators);
            if plan.Err? then r == Fail(plan.error) else Performed(b.env, signers, old(b.View()), plan.value, r,
                b.View())
  {
    hide Performed, Exec, FeeLeg, RoyaltyLeg, ReadConfig, Bill, CreatorsMatch, Bps, PercentSum;
    var c := ReadConfig(b.env, b.View(), config);
    if c.Err? {
      return Fail(c.error);
    }
    var fee := Bps(want, c.value.feeBps);
    var bill := NO_ROYALTY;
    if mode != ROYALTY_NONE {
      var resolved := ResolveRoyalty(metadata, mode, pct, want);
      if resolved.Err? {
        return Fail(resolved.error);
      }
      bill := resolved.value;
      BillFits(metadata, mode, pct, want, bill);
      if |creators| != |bill.shares| {
        return Fail(NotEnoughAccountKeys);
      }
      var matched := CheckCreators(b, w, mint, bill.shares, creators);
      if !matched {
        return Fail(InvalidArgument);
      }
    }
    NoneBill(metadata, mode, pct, want);
    var takerShare := Minus(bill.royalty, bill.makerShare);
    if want + takerShare >= U64 {
      return Fail(ArithmeticOverflow);
    }
    if want + takerShare > maxWant {
      return Fail(InvalidArgument);
    }
    if fee + bill.makerShare > want {
      return Fail(InsufficientFunds);
    }
    ghost var u, auth := b.View(), Signer(taker);
    ghost var skim, pay := FeeLeg(b.env, w, c.value, src, mint, feeAccount, auth, want, shardSeed),
        [Transfer(src, mint, maker, auth, want - fee - bill.makerShare)];
    ghost var royalty := RoyaltyLeg(src, mint, auth, bill, creators);
    assert RoyaltyOps(b.env, w, config, src, mint, feeAccount, maker, taker, want, maxWant, shardSeed, mode, pct,
        metadata, creators) == Ok(skim + pay + royalty);
    r := PayFee(b, signers, w, c.value, src, mint, feeAccount, Signer(taker), want, shardSeed);
    if r.Fail? {
      Halt(b.env, signers, u, skim, pay, r, b.View());
      Halt(b.env, signers, u, skim + pay, royalty, r, b.View());
      return;
    }
    ghost var v := b.View();
    r := b.TokenTransfer(signers, src, mint, maker, Signer(taker), want - fee - bill.makerShare);
    Then(b.env, signers, u, skim, v, pay, r, b.View());
    if r.Fail? {
      Halt(b.env, signers, u, skim + pay, royalty, r, b.View());
      return;
    }
    v := b.View();
    r := PayRoyalty(b, signers, src, mint, Signer(taker), bill, creators);
    Then(b.env, signers, u, skim + pay, v, royalty, r, b.View());
  }

  /** The vault pays out and is closed. */
  method ReleaseVault(b: Bank, signers: set<Key>, vault: Key, mint: Key, dst: Key, amount: nat, auth: Authority)
      returns (r: Outcome)
    modifies b`tokens, b`log
    ensures Performed(b.env, signers, old(b.View()), Swaps.ReleaseOps(vault, mint, dst, amount, auth), r, b.View())
  {
    hide Exec, Performed;
    ghost var u, move, shut := b.View(), Transfer(vault, mint, dst, auth, amount), CloseToken(vault, auth);
    assert Swaps.ReleaseOps(vault, mint, dst, amount, auth) == [move] + [shut];
    r := b.TokenTransfer(signers, vault, mint, dst, auth, amount);
    if r.Fail? {
      Halt(b.env, signers, u, [move], [shut], r, b.View());
      return;
    }
    ghost var u1 := b.View();
    r := b.TokenClose(signers, vault, auth);
    Then(b.env, signers, u, [move], u1, [shut], r, b.View());
  }

  function FundOps(e: Env, record: Key, space: nat, vault: Key, mint: Key, src: Key, maker: Key, amount: nat): seq<Op> {
    [NewRecord(record, space), NewToken(vault, mint, record), Check(mint in e.mints, InvalidAccountData),
        Transfer(src, mint, vault, Signer(maker), amount)]
  }

  /** Create a record and its vault, and move the locked amount into the vault. */
  method LockFunds(b: Bank, signers: set<Key>, record: Key, space: nat, vault: Key, mint: Key, src: Key, maker: Key,
      amount: nat) returns (r: Outcome)
    modifies b`records, b`tokens, b`log
    ensures Performed(b.env, signers, old(b.View()), FundOps(b.env, record, space, vault, mint, src, maker, amount), r,
        b.View())
    ensures r.Pass? ==> b.records == old(b.records)[record := Zeros(space)]
  {
    hide Exec, Performed;
    ghost var w, all := b.View(), FundOps(b.env, record, space, vault, mint, src, maker, amount);
    r := b.CreatePda(signers, record, space);
    NothingToDo(b.env, signers, w);
    Progress(b.env, signers, w, [], w, [all[0]], r, b.View(), all);
    if r.Fail? {
      return;
    }
    ghost var u := b.View();
    r := b.TokenInit(signers, vault, mint, record);
    Progress(b.env, signers, w, [] + [all[0]], u, [all[1]], r, b.View(), all);
    if r.Fail? {
      return;
    }
    u := b.View();
    Checked(b.env, signers, u, mint in b.env.mints, InvalidAccountData);
    Progress(b.env, signers, w, [] + [all[0]] + [all[1]], u, [all[2]],
        if mint in b.env.mints then Pass else Fail(InvalidAccountData), u, all);
    if mint !in b.env.mints {
      return Fail(InvalidAccountData);
    }
    r := b.TokenTransfer(signers, src, mint, vault, Signer(maker), amount);
    Progress(b.env, signers, w, [] + [all[0]] + [all[1]] + [all[2]], u, [all[3]], r, b.View(), all);
    assert [] + [all[0]] + [all[1]] + [all[2]] + [all[3]] == all;
  }
}
