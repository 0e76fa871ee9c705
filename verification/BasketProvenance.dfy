/** Where the terms of a filled basket come from, over whole runs. */
module BasketProvenance {
  import opened Prelude
  import opened Bytes
  import opened Seeds
  import opened Layout
  import opened Ledger
  import opened FeeConfig
  import opened Machine
  import opened Runs
  import opened Admission
  import opened Provenance
  import opened BasketOpening
  import opened OpenedRecords
  import opened BasketAdmission
  import Lifecycle

  predicate OpensBasket(l: Label, k: Key) {
    l.Call? && l.tag == 12 && |l.x.accounts| > 1 && l.x.accounts[1] == k
  }

  lemma ModeReads(b: seq<byte>)
    requires |b| == BASKET_LEN
    ensures ReadBasket(b).authMode == b[466] && ReadBasket(b).maker == b[0..32]
  {
  }

  /** A basket whose holder is not a bearer changes at its opening alone. */
  lemma NormalBasketStep(e: Env, w: World, l: Label, v: World, k: Key)
    requires ValidEnv(e) && Inv(e, w) && StepsRecords(e, w, l, v)
    requires k in v.records && |v.records[k]| == BASKET_LEN && Live(v.records[k]) && v.records[k][466] == 0
    ensures OpensBasket(l, k) || (k in w.records && w.records[k] == v.records[k])
  {
    hide Live, Step, Inv, ValidEnv, ReadBasket, ValidIx, Lifecycle.RecordEffect;
    BasketStep(e, w, l, v, k);
    if l.Call? && l.tag == 15 && |l.x.accounts| > 1 && l.x.accounts[1] == k {
      RewrapRecords(e, w, l.x);
      RewrapAccepted(e, w, l.x);
      ModeReads(w.records[k]);
      assert false;
    }
  }

  /** A live basket of this kind was opened by an earlier instruction at its address, and has not changed since. */
  lemma {:induction false} BasketOrigin(e: Env, r: Trace, n: nat, k: Key) returns (i: nat)
    requires IsRun(e, r) && n < |r.states| && k in r.states[n].records && |r.states[n].records[k]| == BASKET_LEN
        && Live(r.states[n].records[k]) && r.states[n].records[k][466] == 0
    ensures i < n && OpensBasket(r.labels[i], k)
    ensures k in r.states[i + 1].records && r.states[i + 1].records[k] == r.states[n].records[k]
  {
    hide Live, StepsRecords, Inv, Next, ValidEnv, OpensBasket;
    StepAt(e, r, n - 1);
    NormalBasketStep(e, r.states[n - 1], r.labels[n - 1], r.states[n], k);
    if OpensBasket(r.labels[n - 1], k) {
      i := n - 1;
    } else {
      i := BasketOrigin(e, r, n - 1, k);
    }
  }

  /** What an accepted fill has shown of its basket. */
  lemma FilledBasket(e: Env, w: World, x: Ix)
    requires ValidEnv(e) && Inv(e, w) && Step(e, w, 13, x).Ok?
    ensures |x.accounts| > 2 && x.accounts[1] in w.records && |w.records[x.accounts[1]]| == BASKET_LEN
    ensures var b := w.records[x.accounts[1]];
            && Live(b) && b[466] == 0 && b[0..32] == x.accounts[2] && w.now < ReadBasket(b).expiry
            && (ReadBasket(b).taker == ZERO || ReadBasket(b).taker == x.accounts[0])
  {
    hide Step, Inv, ValidEnv, ReadBasket, LegsPayable, LegsReleasable, Create, Live;
    FillBasketAccepted(e, w, x);
    var b := w.records[x.accounts[1]];
    ModeReads(b);
    Lifecycle.BasketParty(b);
    Lifecycle.RederivedIsLive(e, w, x.accounts[1], BasketSeed(x.accounts[2], x.data), ReadBasket(b).bump);
  }

  lemma HeaderReads(b: seq<byte>, d: seq<byte>, maker: Key)
    requires BasketPayload(d) && HeaderBytes(b, d, maker)
    ensures var o := Tail(d);
            && ReadBasket(b).expiry == I64At(d, o) && ReadBasket(b).taker == d[o + 8..o + 40] && b[466] == d[o + 40]
            && b[0..32] == maker
  {
  }

  /** In every run a basket fill settles exactly what was signed at the opening of its record, however often the slot
      was ended and reopened before: the maker, every give leg, every want entry, the expiry and the named taker are,
      byte for byte, those of one earlier `open_basket`, signed by that maker; and the taker is the named one if there
      is one, before that expiry. */
  lemma BasketFillsKeepTheirTerms(e: Env, r: Trace, n: nat, x: Ix) returns (i: nat, y: Ix)
    requires IsRun(e, r) && n < |r.labels| && r.labels[n] == Call(13, x)
    ensures |x.accounts| > 2 && x.accounts[1] in r.states[n].records
    ensures i < n && r.labels[i] == Call(12, y) && BasketPayload(y.data) && |y.accounts| == 6 + y.data[32] * 3
        && y.accounts[1] == x.accounts[1] && y.accounts[0] == x.accounts[2] && y.accounts[0] in y.signers
    ensures var b, d := r.states[n].records[x.accounts[1]], y.data;
            && HeaderBytes(b, d, y.accounts[0])
            && (forall j: nat :: j < d[32] ==> GiveBytes(b, d, y.accounts[6 + j * 3], j))
            && forall j: nat :: j < d[33] ==> WantBytes(b, d, j)
    ensures var d, o := y.data, Tail(y.data);
            && d[o + 40] == 0 && r.states[n].now < I64At(d, o)
            && (d[o + 8..o + 40] == ZERO || d[o + 8..o + 40] == x.accounts[0])
  {
    hide Live, Inv, ReadBasket, Step, ValidIx, ValidEnv, GiveBytes, WantBytes, LegsLockable, WantsPositive,
        Lifecycle.RecordEffect, AliasShown, At, HeaderBytes;
    var w := r.states[n];
    StepAt(e, r, n);
    FilledBasket(e, w, x);
    var k := x.accounts[1];
    i := BasketOrigin(e, r, n, k);
    StepAt(e, r, i);
    y := r.labels[i].x;
    OpenBasketRecords(e, r.states[i], y);
    OpenBasketAccepted(e, r.states[i], y);
    HeaderReads(w.records[k], y.data, y.accounts[0]);
  }
}
