/** The two gates of the fee policy over runs: whoever cancels pays the delist fee to the wallet of the policy in force,
    and whoever opens a record holds an alias while the policy names an alias program; and without such a policy the
    gates do not matter. */
module Gates {
  import opened Prelude
  import opened Bytes
  import opened Seeds
  import opened Layout
  import opened Ledger
  import opened FeeConfig
  import opened Machine
  import opened Runs
  import opened Carry
  import opened Admission
  import opened SwapAdmission
  import opened BidAdmission
  import opened BasketOpening
  import opened BasketAdmission
  import opened ListingAdmission
  import opened Policies
  import opened Provenance
  import Baskets
  import Consent
  import Lifecycle
  import Listings
  import Offers
  import Swaps

  /** Where an instruction names the config, and where the wallet or the alias account that the gate is about. */
  function ConfigIndex(tag: byte): nat {
    if tag == 0 || tag == 4 then 8 else if tag == 2 then 6 else if tag == 12 then 4 else if tag == 16 then 3
    else if tag == 26 then 7 else 5
  }

  function GateIndex(tag: byte): nat { ConfigIndex(tag) + 1 }

  // ---- an accepted instruction has passed its gate ----

  lemma CancelPassedTheGate(e: Env, w: World, tag: byte, x: Ix)
    requires ValidEnv(e) && Inv(e, w) && tag in {2, 16, 28} && Step(e, w, tag, x).Ok?
    ensures GateIndex(tag) < |x.accounts|
        && DelistPaid(e, w, x.accounts[ConfigIndex(tag)], x.accounts[GateIndex(tag)])
  {
    hide Step, Inv, ValidEnv, DelistPaid, Refundable, Releasable, OpenBasketAt, OpenListing, LegsReleasable, CarryOut,
        ReadSwap, ReadBasket, HoldsToken;
    match tag
    case 2 => CancelSwapAccepted(e, w, x);
    case 16 => CancelBasketAccepted(e, w, x);
    case 28 => CancelListingAccepted(e, w, x);
  }

  lemma OpeningPassedTheGate(e: Env, w: World, tag: byte, x: Ix)
    requires tag in {0, 4, 12, 26} && Step(e, w, tag, x).Ok?
    ensures GateIndex(tag) < |x.accounts| && AliasShown(e, w, x, x.accounts[ConfigIndex(tag)])
  {
    hide Step, AliasShown, At, Lockable, Wants, HoldsToken, CarryOut, LegsLockable, WantsPositive;
    match tag
    case 0 => OpenSwapAccepted(e, w, x);
    case 4 => MakeOfferAccepted(e, w, x);
    case 12 => OpenBasketAccepted(e, w, x);
    case 26 => ListAccepted(e, w, x);
  }

  lemma PaidReads(e: Env, w: World, k: Key, wallet: Key)
    requires DelistPaid(e, w, k, wallet)
    ensures ReadConfig(e, w, k).Ok?
    ensures ReadConfig(e, w, k).value.delistFee > 0 ==> wallet == ReadConfig(e, w, k).value.feeWallet
  {
  }

  /** In every run, whoever cancels a swap, a basket or a listing under a policy with a positive delist fee presents the
      fee wallet of that policy: the first 32 bytes of the last accepted policy payload. */
  lemma DelistFeesGoToTheWallet(e: Env, r: Trace, n: nat, tag: byte, x: Ix)
    requires IsRun(e, r) && n < |r.labels| && r.labels[n] == Call(tag, x) && tag in {2, 16, 28}
    ensures LatestPolicy(r.labels[..n]).Some? && |LatestPolicy(r.labels[..n]).value| == 75
    ensures var d := LatestPolicy(r.labels[..n]).value;
            GateIndex(tag) < |x.accounts| && (U64Of(d[34..42]) > 0 ==> x.accounts[GateIndex(tag)] == d[0..32])
  {
    hide Step, Inv, ValidIx, ValidEnv, Lifecycle.RecordEffect, DelistPaid, LatestPolicy, ReadConfig;
    StepAt(e, r, n);
    CancelPassedTheGate(e, r.states[n], tag, x);
    var k, wallet := x.accounts[ConfigIndex(tag)], x.accounts[GateIndex(tag)];
    PaidReads(e, r.states[n], k, wallet);
    PolicyIsTheLatest(e, r, n, k);
  }

  lemma ShownReads(e: Env, w: World, x: Ix, k: Key)
    requires AliasShown(e, w, x, k)
    ensures ReadConfig(e, w, k).Ok?
    ensures ReadConfig(e, w, k).value.aliasProgram == ZERO || x.aliasOk
  {
  }

  /** In every run, whoever opens a swap, a bid, a basket or a listing has shown an alias of theirs, or the alias field
      of the last accepted policy payload is zero. */
  lemma AliasesAreShown(e: Env, r: Trace, n: nat, tag: byte, x: Ix)
    requires IsRun(e, r) && n < |r.labels| && r.labels[n] == Call(tag, x) && tag in {0, 4, 12, 26}
    ensures LatestPolicy(r.labels[..n]).Some? && |LatestPolicy(r.labels[..n]).value| == 75
    ensures x.aliasOk || LatestPolicy(r.labels[..n]).value[42..74] == ZERO
  {
    hide Step, Inv, ValidIx, ValidEnv, Lifecycle.RecordEffect, AliasShown, LatestPolicy, ReadConfig;
    StepAt(e, r, n);
    OpeningPassedTheGate(e, r.states[n], tag, x);
    var k := x.accounts[ConfigIndex(tag)];
    ShownReads(e, r.states[n], x, k);
    PolicyIsTheLatest(e, r, n, k);
  }

  // ---- without such a policy the gates do not matter ----

  /** No config at this key asks a delist fee. */
  predicate NoDelistFee(e: Env, w: World, k: Key) {
    ReadConfig(e, w, k).Ok? ==> ReadConfig(e, w, k).value.delistFee == 0
  }

  function Presenting(x: Ix, i: nat, k: Key): Ix
    requires i < |x.accounts|
  {
    x.(accounts := x.accounts[i := k])
  }

  lemma CancelSwapIgnores(e: Env, w: World, x: Ix, k: Key)
    requires 7 < |x.accounts| && NoDelistFee(e, w, x.accounts[6])
    ensures Swaps.CancelSwap(e, w, x) == Swaps.CancelSwap(e, w, Presenting(x, 7, k))
  {
    hide ReadConfig, Swaps.RefundAndClose, ReadSwap;
  }

  lemma CancelListingIgnores(e: Env, w: World, x: Ix, k: Key)
    requires 6 < |x.accounts| && NoDelistFee(e, w, x.accounts[5])
    ensures Listings.CancelListing(e, w, x) == Listings.CancelListing(e, w, Presenting(x, 6, k))
  {
    hide ReadConfig, ReadSwap, Find;
  }

  lemma {:induction false} UnlocksIgnore(e: Env, w: World, x: Ix, y: Ix, b: seq<byte>, nonce: Key, base: nat,
      auth: Authority, payee: Option<Key>, i: nat)
    requires |b| == BASKET_LEN && |x.accounts| == |y.accounts| >= base + ReadBasket(b).giveCount * 3
        && i <= ReadBasket(b).giveCount
    requires forall j :: base <= j < |x.accounts| ==> x.accounts[j] == y.accounts[j]
    ensures Baskets.UnlockOps(e, w, x, b, nonce, base, auth, payee, i)
        == Baskets.UnlockOps(e, w, y, b, nonce, base, auth, payee, i)
    decreases ReadBasket(b).giveCount - i
  {
    hide ReadBasket, GiveEntry, IsTokenAccount, Baskets.IsLegVault;
    if i < ReadBasket(b).giveCount {
      UnlocksIgnore(e, w, x, y, b, nonce, base, auth, payee, i + 1);
    }
  }

  lemma CancelBasketIgnores(e: Env, w: World, x: Ix, k: Key)
    requires 4 < |x.accounts| && NoDelistFee(e, w, x.accounts[3])
    ensures Baskets.CancelBasket(e, w, x) == Baskets.CancelBasket(e, w, Presenting(x, 4, k))
  {
    hide ReadConfig, ReadBasket, Create, Baskets.UnlockOps;
    var a := x.accounts;
    if |x.data| == 32 && |a| >= 6 && a[1] in w.records && |w.records[a[1]]| == BASKET_LEN {
      var b, t := w.records[a[1]], ReadBasket(w.records[a[1]]);
      if |a| == 6 + t.giveCount * 3 {
        UnlocksIgnore(e, w, x, Presenting(x, 4, k), b, x.data, 6, Seeded(a[1], BasketSeed(a[0], x.data), t.bump),
            Some(a[0]), 0);
      }
    }
  }

  lemma CancelIgnoresTheWallet(e: Env, w: World, tag: byte, x: Ix, k: Key)
    requires tag in {2, 16, 28} && GateIndex(tag) < |x.accounts| && NoDelistFee(e, w, x.accounts[ConfigIndex(tag)])
    ensures Step(e, w, tag, x) == Step(e, w, tag, Presenting(x, GateIndex(tag), k))
  {
    hide Swaps.CancelSwap, Listings.CancelListing, Baskets.CancelBasket, Exec, ReadConfig;
    RefundPlans(e, w, x);
    RefundPlans(e, w, Presenting(x, GateIndex(tag), k));
    BasketPlans(e, w, x);
    BasketPlans(e, w, Presenting(x, GateIndex(tag), k));
    DelistPlans(e, w, x);
    DelistPlans(e, w, Presenting(x, GateIndex(tag), k));
    match tag
    case 2 => CancelSwapIgnores(e, w, x, k);
    case 16 => CancelBasketIgnores(e, w, x, k);
    case 28 => CancelListingIgnores(e, w, x, k);
  }

  /** In every run, while the last policy asks no delist fee, a cancel does the same, to the error, whatever account it
      presents as the wallet. */
  lemma WithoutDelistFeeAnyWallet(e: Env, r: Trace, n: nat, tag: byte, x: Ix, k: Key)
    requires IsRun(e, r) && n < |r.states| && tag in {2, 16, 28} && GateIndex(tag) < |x.accounts|
    requires var d := LatestPolicy(r.labels[..n]); d.Some? && |d.value| == 75 ==> U64Of(d.value[34..42]) == 0
    ensures Step(e, r.states[n], tag, x) == Step(e, r.states[n], tag, Presenting(x, GateIndex(tag), k))
  {
    hide Step, ReadConfig, LatestPolicy, IsRun;
    if ReadConfig(e, r.states[n], x.accounts[ConfigIndex(tag)]).Ok? {
      PolicyIsTheLatest(e, r, n, x.accounts[ConfigIndex(tag)]);
    }
    CancelIgnoresTheWallet(e, r.states[n], tag, x, k);
  }

  /** The same instruction with another alias account, and another answer about it. */
  function WithAlias(x: Ix, i: nat, k: Key, ok: bool): Ix
    requires i < |x.accounts|
  {
    Presenting(x, i, k).(aliasOk := ok)
  }

  /** Both have an alias, or no config at this key names an alias program. */
  predicate AliasIdle(e: Env, w: World, x: Ix, k: Key, ok: bool) {
    (x.aliasOk && ok) || (ReadConfig(e, w, k).Ok? ==> ReadConfig(e, w, k).value.aliasProgram == ZERO)
  }

  lemma AliasGateIgnores(e: Env, w: World, x: Ix, i: nat, c: Key, k: Key, ok: bool)
    requires i < |x.accounts| && AliasIdle(e, w, x, c, ok)
    ensures RequireAlias(e, w, x, c) == RequireAlias(e, w, WithAlias(x, i, k, ok), c)
  {
    hide ReadConfig;
  }

  lemma OpenSwapIgnores(e: Env, w: World, x: Ix, k: Key, ok: bool)
    requires 9 < |x.accounts| && AliasIdle(e, w, x, x.accounts[8], ok)
    ensures Swaps.OpenSwap(e, w, x) == Swaps.OpenSwap(e, w, WithAlias(x, 9, k, ok))
  {
    hide RequireAlias, AliasIdle, Find, SwapImage;
    AliasGateIgnores(e, w, x, 9, x.accounts[8], k, ok);
  }

  lemma MakeOfferIgnores(e: Env, w: World, x: Ix, k: Key, ok: bool)
    requires 9 < |x.accounts| && AliasIdle(e, w, x, x.accounts[8], ok)
    ensures Offers.MakeOffer(e, w, x) == Offers.MakeOffer(e, w, WithAlias(x, 9, k, ok))
  {
    hide RequireAlias, AliasIdle, Find, OfferImage, ReadSwap;
    AliasGateIgnores(e, w, x, 9, x.accounts[8], k, ok);
  }

  lemma ListIgnores(e: Env, w: World, x: Ix, k: Key, ok: bool)
    requires 8 < |x.accounts| && AliasIdle(e, w, x, x.accounts[7], ok)
    ensures Listings.List(e, w, x) == Listings.List(e, w, WithAlias(x, 8, k, ok))
  {
    hide RequireAlias, AliasIdle, Find, ListingImage;
    AliasGateIgnores(e, w, x, 8, x.accounts[7], k, ok);
  }

  lemma {:induction false} LocksIgnore(e: Env, x: Ix, y: Ix, basket: Key, b: seq<byte>, i: nat)
    requires Baskets.PayloadFits(x.data) && |x.accounts| == 6 + x.data[32] * 3 && |b| == BASKET_LEN && i <= x.data[32]
    requires y.data == x.data && |x.accounts| == |y.accounts| && x.accounts[0] == y.accounts[0]
    requires forall j :: 6 <= j < |x.accounts| ==> x.accounts[j] == y.accounts[j]
    ensures Baskets.LockOps(e, x, basket, b, i) == Baskets.LockOps(e, y, basket, b, i)
    decreases x.data[32] - i
  {
    hide PutGive, Baskets.NotWanted, Baskets.IsLegVault, Baskets.GiveAmount;
    if i < x.data[32] {
      LocksIgnore(e, x, y, basket, Baskets.WithGive(x, b, i), i + 1);
    }
  }

  lemma HeaderNonce(d: seq<byte>)
    requires Baskets.PayloadFits(d)
    ensures Baskets.HeaderOf(d, ZERO, 0).nonce == KeyAt(d, 0)
  {
  }

  lemma OpenBasketIgnores(e: Env, w: World, x: Ix, k: Key, ok: bool)
    requires 5 < |x.accounts| && AliasIdle(e, w, x, x.accounts[4], ok)
    ensures Baskets.OpenBasket(e, w, x) == Baskets.OpenBasket(e, w, WithAlias(x, 5, k, ok))
  {
    hide RequireAlias, AliasIdle, Find, HeaderImage, Baskets.WithWants, Baskets.LockOps, Baskets.WantChecks,
        Baskets.HeaderOf;
    AliasGateIgnores(e, w, x, 5, x.accounts[4], k, ok);
    var d, a := x.data, x.accounts;
    if Baskets.PayloadFits(d) && |a| == 6 + d[32] * 3 {
      HeaderNonce(d);
      if Find(e.derive, BasketSeed(a[0], KeyAt(d, 0))).Ok? {
        var bump := Find(e.derive, BasketSeed(a[0], KeyAt(d, 0))).value.bump;
        LocksIgnore(e, x, WithAlias(x, 5, k, ok), a[1],
            Baskets.WithWants(HeaderImage(Baskets.HeaderOf(d, a[0], bump)), d, 0), 0);
      }
    }
  }

  lemma OpeningIgnoresTheAlias(e: Env, w: World, tag: byte, x: Ix, k: Key, ok: bool)
    requires tag in {0, 4, 12, 26} && GateIndex(tag) < |x.accounts|
    requires AliasIdle(e, w, x, x.accounts[ConfigIndex(tag)], ok)
    ensures Step(e, w, tag, x) == Step(e, w, tag, WithAlias(x, GateIndex(tag), k, ok))
  {
    hide Swaps.OpenSwap, Offers.MakeOffer, Baskets.OpenBasket, Listings.List, Exec, AliasIdle, PlanOf;
    var y := WithAlias(x, GateIndex(tag), k, ok);
    match tag
    case 12 => {
      Consent.PlainPlans(e, w, x);
      Consent.PlainPlans(e, w, y);
      OpenBasketIgnores(e, w, x, k, ok);
    }
    case 26 => {
      SalePlans(e, w, x);
      SalePlans(e, w, y);
      ListIgnores(e, w, x, k, ok);
    }
    case _ => {
      SwapPlans(e, w, x);
      SwapPlans(e, w, y);
      if tag == 0 {
        OpenSwapIgnores(e, w, x, k, ok);
      } else {
        MakeOfferIgnores(e, w, x, k, ok);
      }
    }
  }

  /** In every run, with an alias, or while the last policy names no alias program, an opening does the same, to the
      error, whatever account it presents as the alias. */
  lemma WithAliasOrWithoutProgramAnyAlias(e: Env, r: Trace, n: nat, tag: byte, x: Ix, k: Key, ok: bool)
    requires IsRun(e, r) && n < |r.states| && tag in {0, 4, 12, 26} && GateIndex(tag) < |x.accounts|
    requires var d := LatestPolicy(r.labels[..n]);
             (x.aliasOk && ok) || (d.Some? && |d.value| == 75 ==> d.value[42..74] == ZERO)
    ensures Step(e, r.states[n], tag, x) == Step(e, r.states[n], tag, WithAlias(x, GateIndex(tag), k, ok))
  {
    hide Step, ReadConfig, LatestPolicy, IsRun;
    if ReadConfig(e, r.states[n], x.accounts[ConfigIndex(tag)]).Ok? {
      PolicyIsTheLatest(e, r, n, x.accounts[ConfigIndex(tag)]);
    }
    OpeningIgnoresTheAlias(e, r.states[n], tag, x, k, ok);
  }
}
