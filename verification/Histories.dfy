/** What every run of the program guarantees about its records: backing, single endings, expiry. */
module Histories {
  import opened Prelude
  import opened Bytes
  import opened Seeds
  import opened Layout
  import opened Ledger
  import opened FeeConfig
  import opened Machine
  import opened Shapes
  import opened Invariant
  import opened Runs
  import opened Lifecycle
  import Offers

  // ---- escrow backing ----

  /** An open swap has a vault at the address of its maker and nonce, owned by the swap's own address,
      undelegated, holding at least the recorded amount. */
  lemma OpenSwapIsBacked(e: Env, w: World, maker: Key, nonce: Key, bump: byte, k: Key)
    requires ValidEnv(e) && Inv(e, w) && Create(e.derive, SwapSeed(maker, nonce), bump) == Some(k)
    requires k in w.records && Live(w.records[k])
    ensures |w.records[k]| == SWAP_LEN
    ensures var s := ReadSwap(w.records[k]);
            && s.maker == maker && s.nonce == nonce && s.status == STATUS_OPEN
            && Holds(w.tokens, Address(e.derive, VaultSeed(maker, nonce)), k, s.giveMint, s.giveAmount)
  {
    hide Holds, ReadSwap, ReadOffer, ReadBasket, GiveEntry, Live;
    var b := w.records[k];
    var t, c :| IsHome(e, k, |b|, t, c);
    OneHome(e.derive, SwapSeed(maker, nonce), bump, t, c);
    var s := ReadSwap(b);
    if Create(e.derive, SwapSeed(s.maker, s.nonce), s.bump) == Some(k) {
      OneHome(e.derive, SwapSeed(maker, nonce), bump, SwapSeed(s.maker, s.nonce), s.bump);
    } else {
      OneHome(e.derive, SwapSeed(maker, nonce), bump, ListingSeed(s.maker, s.nonce), s.bump);
    }
    assert Legs(e, k, b)[0] == Leg(Address(e.derive, VaultSeed(maker, nonce)), s.giveMint, s.giveAmount);
  }

  lemma OpenBidIsBacked(e: Env, w: World, bidder: Key, nonce: Key, bump: byte, k: Key)
    requires ValidEnv(e) && Inv(e, w) && Create(e.derive, OfferSeed(bidder, nonce), bump) == Some(k)
    requires k in w.records && Live(w.records[k])
    ensures |w.records[k]| == OFFER_LEN
    ensures var o := ReadOffer(w.records[k]);
            && o.offerer == bidder && o.nonce == nonce && o.status == STATUS_OPEN
            && Holds(w.tokens, Address(e.derive, OVaultSeed(bidder, nonce)), k, o.wantMint, o.wantAmount)
  {
    hide Holds, ReadSwap, ReadOffer, ReadBasket, GiveEntry, Live;
    var b := w.records[k];
    var t, c :| IsHome(e, k, |b|, t, c);
    OneHome(e.derive, OfferSeed(bidder, nonce), bump, t, c);
    var o := ReadOffer(b);
    OneHome(e.derive, OfferSeed(bidder, nonce), bump, OfferSeed(o.offerer, o.nonce), o.bump);
    assert Legs(e, k, b)[0] == Leg(Address(e.derive, OVaultSeed(bidder, nonce)), o.wantMint, o.wantAmount);
  }

  /** Every leg of an open basket is backed by its own vault, also when two legs share a mint. */
  lemma OpenBasketIsBacked(e: Env, w: World, maker: Key, nonce: Key, bump: byte, k: Key, i: nat)
    requires ValidEnv(e) && Inv(e, w) && Create(e.derive, BasketSeed(maker, nonce), bump) == Some(k)
    requires k in w.records && Live(w.records[k])
    ensures |w.records[k]| == BASKET_LEN
    ensures var b := w.records[k];
            var t := ReadBasket(b);
            && t.maker == maker && t.nonce == nonce && t.status == STATUS_OPEN && 1 <= t.giveCount <= MAX_LEG
                && t.wantCount <= MAX_LEG
            && (i < t.giveCount ==>
                  Holds(w.tokens, Address(e.derive, BVaultSeed(maker, nonce, i)), k, GiveEntry(b, i).mint,
                      GiveEntry(b, i).amount))
  {
    hide Holds, ReadSwap, ReadOffer, ReadBasket, GiveEntry, Live;
    var b := w.records[k];
    var t, c :| IsHome(e, k, |b|, t, c);
    OneHome(e.derive, BasketSeed(maker, nonce), bump, t, c);
    var q := ReadBasket(b);
    OneHome(e.derive, BasketSeed(maker, nonce), bump, BasketSeed(q.maker, q.nonce), q.bump);
    if i < q.giveCount {
      assert Legs(e, k, b)[i] == BasketLeg(e, b, i);
    }
  }

  // ---- openings and endings alternate ----

  function Openings(labels: seq<Label>, k: Key): nat {
    if labels == [] then 0 else
    var l := labels[|labels| - 1];
    Openings(labels[..|labels| - 1], k) + (if l.Call? && k in Opens(l.tag, l.x) then 1 else 0)
  }

  function Endings(labels: seq<Label>, k: Key): nat {
    if labels == [] then 0 else
    var l := labels[|labels| - 1];
    Endings(labels[..|labels| - 1], k) + (if l.Call? && k in Ends(l.tag, l.x) then 1 else 0)
  }

  /** A live record, or a spent-marker. */
  predicate Present(w: World, k: Key) {
    k in w.records && (Live(w.records[k]) || |w.records[k]| == MARKER_LEN)
  }

  lemma OutsideKeepsPresence(e: Env, w: World, v: World, k: Key)
    requires Inv(e, w) && Outside(e, w, v)
    ensures Present(w, k) <==> Present(v, k)
    ensures Present(w, k) ==> v.records[k] == w.records[k]
  {
    hide Live, RecordOk;
  }

  lemma ZerosAbsent(w: World, v: World, k: Key)
    requires k in w.records && Live(w.records[k]) && k in v.records && v.records[k] == Zeros(|w.records[k]|)
    ensures !Present(v, k)
  {
    ZerosNotLive(|w.records[k]|);
  }

  lemma CallChangesPresence(w: World, tag: byte, x: Ix, v: World, k: Key)
    requires RecordEffect(w, tag, x, v)
    ensures k in Opens(tag, x) ==> !Present(w, k) && Present(v, k) && k !in Ends(tag, x)
    ensures k in Ends(tag, x) ==> Present(w, k) && !Present(v, k)
    ensures k !in Opens(tag, x) && k !in Ends(tag, x) ==> (Present(w, k) <==> Present(v, k))
  {
    hide Live;
    if k in Ends(tag, x) {
      ZerosAbsent(w, v, k);
    }
  }

  /** Over every run, at every address, openings and endings strictly alternate: there is one more opening
      than endings while a record is present, and as many otherwise. In particular each record ends at
      most once, and a slot is reopened only after an ending. */
  lemma {:induction false} OpeningsAndEndingsAlternate(e: Env, r: Trace, n: nat, k: Key)
    requires IsRun(e, r) && n < |r.states|
    ensures Openings(r.labels[..n], k) == Endings(r.labels[..n], k) + if Present(r.states[n], k) then 1 else 0
  {
    hide Inv, Step, Outside, ValidEnv, ValidIx, Live, Opens, Ends, Rewrites;
    if n > 0 {
      OpeningsAndEndingsAlternate(e, r, n - 1, k);
      RunKeepsInv(e, r, n - 1);
      var w, v, l := r.states[n - 1], r.states[n], r.labels[n - 1];
      assert r.labels[..n][..n - 1] == r.labels[..n - 1];
      assert Next(e, w, l, v);
      match l
      case Call(tag, x) =>
        StepRecordEffect(e, w, tag, x);
        CallChangesPresence(w, tag, x, v, k);
      case Elsewhere => OutsideKeepsPresence(e, w, v, k);
    }
  }

  /** A spent-marker is never removed. */
  lemma {:induction false} MarkersStay(e: Env, r: Trace, m: nat, n: nat, k: Key)
    requires IsRun(e, r) && m <= n < |r.states| && k in r.states[m].records && |r.states[m].records[k]| == MARKER_LEN
    ensures k in r.states[n].records && |r.states[n].records[k]| == MARKER_LEN
    decreases n
  {
    hide Inv, Step, Outside, ValidEnv, ValidIx, Opens, Ends, Rewrites;
    if m < n {
      MarkersStay(e, r, m, n - 1, k);
      RunKeepsInv(e, r, n - 1);
      var w, v, l := r.states[n - 1], r.states[n], r.labels[n - 1];
      assert Next(e, w, l, v);
      match l
      case Call(tag, x) => StepRecordEffect(e, w, tag, x);
      case Elsewhere => OutsideKeepsPresence(e, w, v, k);
    }
  }

  // ---- wiped records are refused ----

  lemma WipedWantsNoMint()
    ensures ReadSwap(Zeros(SWAP_LEN)).wantMint == ZERO
  {
    assert KeyAt(Zeros(SWAP_LEN), S_WANT_MINT) == ZERO;
  }

  lemma BidsNeedALiveSwap(e: Env, w: World, x: Ix)
    requires ValidEnv(e) && Inv(e, w) && Run(e, w, x, Offers.MakeOffer(e, w, x)).Ok?
    ensures |x.accounts| > 4 && x.accounts[4] in w.records && Live(w.records[x.accounts[4]])
  {
    hide Offers.MakeOffer, OfferImage, WellFormed, Legs, Homed, Backed;
    var o, s := MakeOfferShape(e, x, w);
    var a := x.accounts;
    var create, vault, rest := NewRecord(a[1], OFFER_LEN), NewToken(a[2], o.wantMint, a[1]),
        [Check(o.wantMint in e.mints, InvalidAccountData), Transfer(a[5], o.wantMint, a[2], Signer(o.offerer),
            o.wantAmount), Write(a[1], OfferImage(o))];
    assert Offers.MakeOffer(e, w, x).value == [create] + ([vault] + rest);
    ExecCons(e, x.signers, w, create, [vault] + rest);
    ExecCons(e, x.signers, Apply(e, x.signers, w, create).value, vault, rest);
    WipedWantsNoMint();
  }

  /** Every program record an accepted instruction settles, refunds, rewrites or bids on is live, although
      a wiped record's status byte still reads open: it no longer derives the address it sits at. */
  lemma WipedRecordsAreRefused(e: Env, w: World, tag: byte, x: Ix, k: Key)
    requires ValidEnv(e) && ValidIx(e, x) && Inv(e, w) && Step(e, w, tag, x).Ok?
    requires k in Ends(tag, x) + Rewrites(tag, x) || (tag == 4 && |x.accounts| > 4 && k == x.accounts[4])
    ensures k in w.records && Live(w.records[k])
  {
    hide Inv, ValidIx, ValidEnv, Exec, Live, Offers.MakeOffer;
    StepRecordEffect(e, w, tag, x);
    if tag == 4 && |x.accounts| > 4 && k == x.accounts[4] {
      BidsNeedALiveSwap(e, w, x);
    }
  }
}
