/** The payment legs every settle shares: fee, maker proceeds, royalty. */
module Payments {
  import opened Prelude
  import opened Bytes
  import opened Layout
  import opened Ledger
  import opened FeeConfig
  import opened Royalty

  function Minus(a: nat, b: nat): nat {
    if b <= a then a - b else 0
  }

  /** The fee leg, present only when the fee is positive. */
  function FeeLeg(e: Env, w: World, c: Config, src: Key, mint: Key, feeAccount: Key, auth: Authority, amount: nat,
      shardSeed: byte): seq<Op> {
    var fee := Bps(amount, c.feeBps);
    if fee == 0 then [] else
    [Check(IsFeeDestination(e, w, feeAccount, mint, c, shardSeed), InvalidArgument),
        Transfer(src, mint, feeAccount, auth, fee)]
  }

  /** Fee to the fee destination, the rest to the payee: `pay_want_leg`, `pay_coins_via_delegate`, the
      want legs of `fill_basket` and the bid leg of `accept_offer`. */
  function PriceOps(e: Env, w: World, c: Config, src: Key, mint: Key, feeAccount: Key, payee: Key, auth: Authority,
      amount: nat, shardSeed: byte): seq<Op> {
    var fee := Bps(amount, c.feeBps);
    FeeLeg(e, w, c, src, mint, feeAccount, auth, amount, shardSeed) +
    [Check(fee <= amount, ArithmeticOverflow), Transfer(src, mint, payee, auth, Minus(amount, fee))]
  }

  /** Who receives what share of the royalty, and how much of it the maker funds. */
  datatype RoyaltyBill = RoyaltyBill(royalty: nat, makerShare: nat, shares: seq<Share>)

  const NO_ROYALTY := RoyaltyBill(0, 0, [])

  function Percentages(shares: seq<Share>): (r: seq<byte>)
    ensures |r| == |shares|
  {
    seq(|shares|, i requires 0 <= i < |shares| => shares[i].percent)
  }

  function MakerShare(mode: byte, pct: byte, royalty: nat): Result<nat> {
    if mode == ROYALTY_MAKER then Ok(royalty)
    else if mode == ROYALTY_TAKER then Ok(0)
    else if mode == ROYALTY_SPLIT then
      :- Need(pct <= 100, InvalidArgument);
      Ok(royalty * pct / 100 % U64)
    else Err(InvalidArgument)
  }

  /** Resolve the royalty of a price from the asset's own metadata. */
  function Bill(metadata: Option<MetadataAccount>, mode: byte, pct: byte, want: nat): Result<RoyaltyBill> {
    if mode == ROYALTY_NONE then Ok(NO_ROYALTY) else
    :- Need(metadata.Some?, NotEnoughAccountKeys);
    :- Need(!metadata.value.Foreign?, IllegalOwner);
    :- Need(!metadata.value.Misplaced?, InvalidArgument);
    var t :- RoyaltyTerms(metadata.value.data);
    :- Need(t.bps != 0 && t.shares != [], InvalidArgument);
    :- Need(PercentSum(Percentages(t.shares)) == 100, InvalidArgument);
    var royalty := Bps(want, t.bps);
    var makerShare :- MakerShare(mode, pct, royalty);
    Ok(RoyaltyBill(royalty, makerShare, t.shares))
  }

  /** Each creator account is of the want mint and belongs to the matching creator. */
  predicate CreatorsMatch(w: World, mint: Key, shares: seq<Share>, accounts: seq<Key>)
    requires |accounts| == |shares|
  {
    forall i :: 0 <= i < |shares| ==> IsTokenAccount(w, accounts[i], mint, shares[i].creator)
  }

  /** One transfer for every positive payout, in creator order. */
  function CreatorOps(src: Key, mint: Key, auth: Authority, payouts: seq<nat>, accounts: seq<Key>): seq<Op>
    requires |payouts| == |accounts|
  {
    if payouts == [] then [] else
    (if payouts[0] == 0 then [] else [Transfer(src, mint, accounts[0], auth, payouts[0])])
    + CreatorOps(src, mint, auth, payouts[1..], accounts[1..])
  }

  /** A royalty that can be paid out: shares of 100 in all, one account for each creator. */
  predicate Payable(bill: RoyaltyBill, creators: seq<Key>) {
    bill.royalty > 0 ==> PercentSum(Percentages(bill.shares)) == 100 && |creators| == |bill.shares|
  }

  /** The creator splits, present only when the royalty is positive. */
  function RoyaltyLeg(src: Key, mint: Key, auth: Authority, bill: RoyaltyBill, creators: seq<Key>): seq<Op>
    requires Payable(bill, creators)
  {
    if bill.royalty == 0 then [] else
    CreatorOps(src, mint, auth, Splits(bill.royalty, Percentages(bill.shares)), creators)
  }

  /** `pay_want_and_royalty`: fee, maker payment and creator splits, all from the taker's account. */
  function RoyaltyOps(e: Env, w: World, config: Key, src: Key, mint: Key, feeAccount: Key, maker: Key, taker: Key,
                      want: nat, maxWant: nat, shardSeed: byte, mode: byte, pct: byte,
                      metadata: Option<MetadataAccount>, creators: seq<Key>): Plan
  {
    var c :- ReadConfig(e, w, config);
    var fee := Bps(want, c.feeBps);
    var bill :- Bill(metadata, mode, pct, want);
    :- Need(mode == ROYALTY_NONE || |creators| == |bill.shares|, NotEnoughAccountKeys);
    :- Need(mode == ROYALTY_NONE || CreatorsMatch(w, mint, bill.shares, creators), InvalidArgument);
    var takerShare := Minus(bill.royalty, bill.makerShare);
    :- Need(want + takerShare < U64, ArithmeticOverflow);
    :- Need(want + takerShare <= maxWant, InvalidArgument);
    :- Need(fee + bill.makerShare <= want, InsufficientFunds);
    var auth := Signer(taker);
    Ok(FeeLeg(e, w, c, src, mint, feeAccount, auth, want, shardSeed)
       + [Transfer(src, mint, maker, auth, want - fee - bill.makerShare)]
       + RoyaltyLeg(src, mint, auth, bill, creators))
  }

  /** `load_fill_state`: a resting swap or listing this taker may fill now, for these mints. */
  function LoadFillState(w: World, state: Key, giveMint: Key, wantMint: Key, taker: Key): Result<Swap> {
    if state !in w.records || |w.records[state]| != SWAP_LEN
        || w.records[state][S_STATUS] != STATUS_OPEN then Err(InvalidAccountData) else
    var s := ReadSwap(w.records[state]);
    :- Need(s.giveMint == giveMint && s.wantMint == wantMint, InvalidArgument);
    :- Need(w.now < s.expiry, InvalidArgument);
    :- Need(s.taker == ZERO || s.taker == taker, InvalidArgument);
    Ok(s)
  }
}
