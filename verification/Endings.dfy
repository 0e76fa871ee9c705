/** Why a record may end: by settlement before its expiry, by its own maker at any time, by anyone from its expiry on,
    or, for a bearer basket, by the holder of the claim. */
module Endings {
  import opened Prelude
  import opened Bytes
  import opened Seeds
  import opened Layout
  import opened Ledger
  import opened FeeConfig
  import opened Machine
  import opened Shapes
  import opened Runs
  import opened Lifecycle
  import opened Histories
  import opened Provenance
  import Swaps
  import Offers
  import Baskets
  import Listings

  datatype Ending = Settled | Claimed | Withdrawn | Expired

  function EndingOf(tag: byte): Ending {
    if tag in {1, 5, 13, 27} then Settled else if tag == 14 then Claimed else if tag in {2, 6, 16, 28} then Withdrawn
    else Expired
  }

  function ExpiryOf(b: seq<byte>): int {
    if |b| == SWAP_LEN then ReadSwap(b).expiry else if |b| == OFFER_LEN then ReadOffer(b).expiry
    else if |b| == BASKET_LEN then ReadBasket(b).expiry else 0
  }

  /** The ending is of a kind the record's terms, the clock and the signers allow. */
  predicate Justified(w: World, x: Ix, b: seq<byte>, how: Ending) {
    match how
    case Settled => w.now < ExpiryOf(b)
    case Claimed => |b| == BASKET_LEN && ReadBasket(b).authMode == AUTH_BEARER
    case Withdrawn => |b| >= 32 && KeyAt(b, 0) in x.signers
    case Expired => ExpiryOf(b) <= w.now
  }

  lemma SwapEndingJustified(e: Env, w: World, tag: byte, x: Ix)
    requires tag in {1, 2, 3, 27, 28, 29} && Step(e, w, tag, x).Ok? && |x.accounts| > 1
    ensures x.accounts[1] in w.records && Justified(w, x, w.records[x.accounts[1]], EndingOf(tag))
  {
    hide Swaps.Fill, Swaps.CancelSwap, Swaps.Expire, Listings.FillListing, Listings.CancelListing,
        Listings.ExpireListing, Exec, IsTokenAccount, Create, Find, ReadOffer, ReadBasket, ReadSwap;
    match tag
    case 1 => { var s, c, nonce := FillShape(e, x, w); }
    case 2 => { var s := CancelSwapShape(e, x, w); SwapParty(w.records[x.accounts[1]]); }
    case 3 => { var s := ExpireShape(e, x, w); }
    case 27 => { var s, nonce := FillListingShape(e, x, w); }
    case 28 => { var s := CancelListingShape(e, x, w); SwapParty(w.records[x.accounts[1]]); }
    case 29 => { var s := ExpireListingShape(e, x, w); }
  }

  lemma BidEndingJustified(e: Env, w: World, tag: byte, x: Ix, k: Key)
    requires tag in {5, 6, 7} && Step(e, w, tag, x).Ok? && k in Ends(tag, x)
    ensures k in w.records && Justified(w, x, w.records[k], EndingOf(tag))
  {
    hide Offers.AcceptOffer, Offers.WithdrawOffer, Offers.ExpireOffer, Exec, IsTokenAccount, Find, ReadOffer,
        ReadBasket, ReadSwap;
    match tag
    case 5 => { var s, o, c, sn, on := AcceptOfferShape(e, x, w); }
    case 6 => { var o := WithdrawOfferShape(e, x, w); OfferParty(w.records[k]); }
    case 7 => { var o := ExpireOfferShape(e, x, w); }
  }

  lemma BasketEndingJustified(e: Env, w: World, tag: byte, x: Ix, k: Key)
    requires tag in {13, 14, 16, 17} && Step(e, w, tag, x).Ok? && k in Ends(tag, x)
    ensures k in w.records && Justified(w, x, w.records[k], EndingOf(tag))
  {
    hide Baskets.FillBasket, Baskets.ClaimBearer, Baskets.CancelBasket, Baskets.ExpireBasket, Exec, ReadOffer,
        ReadBasket, ReadSwap, Create;
    match tag
    case 13 => { var h, c, auth := FillBasketShape(e, x, w); }
    case 14 => { var h, auth := ClaimBearerShape(e, x, w); }
    case 16 => { var h, auth := CancelBasketShape(e, x, w); BasketParty(w.records[k]); }
    case 17 => { var h, auth := ExpireBasketShape(e, x, w); }
  }

  lemma EndedIsLive(w: World, tag: byte, x: Ix, v: World, k: Key)
    requires RecordEffect(w, tag, x, v) && k in Ends(tag, x)
    ensures k in w.records && Live(w.records[k])
  {
  }

  /** In every run, whatever ends a record does so for a reason of its kind: a settlement only before the expiry the
      record names, a withdrawal only with the signature of the party who opened it, an expiry only from that time on,
      a claim only on a bearer basket. */
  lemma EndingsAreJustified(e: Env, r: Trace, n: nat, tag: byte, x: Ix, k: Key)
    requires IsRun(e, r) && n < |r.labels| && r.labels[n] == Call(tag, x) && k in Ends(tag, x)
    ensures k in r.states[n].records && Live(r.states[n].records[k])
        && Justified(r.states[n], x, r.states[n].records[k], EndingOf(tag))
  {
    hide Step, Inv, ValidIx, ValidEnv, Live, Justified, RecordEffect, EndingOf;
    StepAt(e, r, n);
    EndedIsLive(r.states[n], tag, x, r.states[n + 1], k);
    if tag in {1, 2, 3, 27, 28, 29} {
      SwapEndingJustified(e, r.states[n], tag, x);
    } else if tag in {5, 6, 7} {
      BidEndingJustified(e, r.states[n], tag, x, k);
    } else {
      BasketEndingJustified(e, r.states[n], tag, x, k);
    }
  }

  lemma StepKeepsExpiry(e: Env, w: World, tag: byte, x: Ix, v: World, k: Key)
    requires ValidEnv(e) && ValidIx(e, x) && Inv(e, w) && Step(e, w, tag, x) == Ok(v) && RecordEffect(w, tag, x, v)
    requires k in w.records && Live(w.records[k]) && k !in Ends(tag, x)
    ensures k in v.records && Live(v.records[k]) && ExpiryOf(v.records[k]) == ExpiryOf(w.records[k])
  {
    hide Step, Inv, ValidIx, ValidEnv, Live, ReadSwap, ReadOffer, ReadBasket, Ends, Opens, Baskets.Rewrap, Exec,
        PutClaim;
    if k in Rewrites(tag, x) && tag == 15 {
      BasketPlans(e, w, x);
      var h, b := RewrapRewrites(e, x, w);
    }
  }

  lemma ClockRuns(e: Env, w: World, l: Label, v: World)
    requires Next(e, w, l, v)
    ensures w.now <= v.now
  {
    hide PlanOf, ValidIx, Exec;
    if l.Call? {
      ExecRecords(e, l.x.signers, w, PlanOf(e, w, l.tag, l.x).value);
    }
  }

  lemma LiveStaysOutside(e: Env, w: World, v: World, k: Key)
    requires Inv(e, w) && Outside(e, w, v) && k in w.records && Live(w.records[k])
    ensures k in v.records && v.records[k] == w.records[k]
  {
    hide Live, RecordOk;
  }

  /** In every run, once a record has reached its expiry nobody settles it any more: until it ends it stays open with
      the same expiry, and what ends it is a withdrawal by its maker, an expiry, or a bearer's claim. */
  lemma {:induction false} ExpiredRecordsOnlyReturn(e: Env, r: Trace, m: nat, n: nat, k: Key)
    requires IsRun(e, r) && m <= n < |r.labels| && k in r.states[m].records && Live(r.states[m].records[k])
    requires ExpiryOf(r.states[m].records[k]) <= r.states[m].now
    requires forall j :: m <= j < n && r.labels[j].Call? ==> k !in Ends(r.labels[j].tag, r.labels[j].x)
    ensures k in r.states[n].records && Live(r.states[n].records[k]) && r.states[m].now <= r.states[n].now
    ensures ExpiryOf(r.states[n].records[k]) == ExpiryOf(r.states[m].records[k])
    ensures r.labels[n].Call? && k in Ends(r.labels[n].tag, r.labels[n].x) ==> EndingOf(r.labels[n].tag) != Settled
    decreases n
  {
    hide Step, Inv, ValidIx, ValidEnv, Live, RecordEffect, ExpiryOf, Ends, EndingOf, Outside, Genesis;
    if m < n {
      ExpiredRecordsOnlyReturn(e, r, m, n - 1, k);
      var w, v, l := r.states[n - 1], r.states[n], r.labels[n - 1];
      StepAt(e, r, n - 1);
      assert Next(e, w, l, v);
      ClockRuns(e, w, l, v);
      match l
      case Call(tag, x) => StepKeepsExpiry(e, w, tag, x, v, k);
      case Elsewhere => LiveStaysOutside(e, w, v, k);
    }
    if r.labels[n].Call? && k in Ends(r.labels[n].tag, r.labels[n].x) {
      EndingsAreJustified(e, r, n, r.labels[n].tag, r.labels[n].x, k);
    }
  }
}
