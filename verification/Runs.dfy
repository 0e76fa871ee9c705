/** Runs: any interleaving of the program's instructions with everything else that happens on the chain. */
module Runs {
  import opened Prelude
  import opened Bytes
  import opened Seeds
  import opened Layout
  import opened Ledger
  import opened FeeConfig
  import opened Machine
  import opened Invariant
  import BasketInvariant

  /** Whatever other programs and users do between two of this program's instructions. They cannot sign
      for a program address: an undelegated account of such an owner only receives. They cannot create
      accounts at program addresses, nor write program-owned records; the runtime reaps drained records,
      and someone may instead fund one again. Time does not run backwards. */
  ghost predicate Outside(e: Env, w: World, v: World) {
    && v.log == w.log && w.now <= v.now
    && (forall k :: k in w.tokens && Derived(e.derive, w.tokens[k].owner) && w.tokens[k].delegate.None? ==>
          Holds(v.tokens, k, w.tokens[k].owner, w.tokens[k].mint, w.tokens[k].amount))
    && (forall k :: k in v.tokens && k !in w.tokens ==> !Derived(e.derive, k) && k !in w.records)
    && (forall k :: k in v.records ==> k in w.records && v.records[k] == w.records[k])
    && (forall k :: k in w.records && k !in v.records ==> k in w.drained)
    && (forall k :: k in v.drained ==> k in w.drained && k in v.records)
  }

  /** A user's own transfer is an outside step: no signer is a program address. */
  lemma UserTransferIsOutside(e: Env, w: World, src: Key, mint: Key, dst: Key, user: Key, amount: nat)
    requires !Derived(e.derive, user) && TransferTokens(w.tokens, src, mint, dst, user, amount).Ok?
    requires forall k :: k in w.drained ==> k in w.records
    ensures Outside(e, w, w.(tokens := TransferTokens(w.tokens, src, mint, dst, user, amount).value))
  {
  }

  datatype Label = Call(tag: byte, x: Ix) | Elsewhere

  ghost predicate Next(e: Env, w: World, l: Label, v: World) {
    match l
    case Call(tag, x) => ValidIx(e, x) && Step(e, w, tag, x) == Ok(v)
    case Elsewhere => Outside(e, w, v)
  }

  /** Before the program's first instruction it owns nothing, and nothing sits at its addresses. */
  ghost predicate Genesis(e: Env, w: World) {
    && w.records == map[] && w.drained == {} && w.log == []
    && forall k :: k in w.tokens ==> !Derived(e.derive, k)
  }

  datatype Trace = Trace(states: seq<World>, labels: seq<Label>)

  ghost predicate IsRun(e: Env, r: Trace) {
    && ValidEnv(e)
    && |r.states| == |r.labels| + 1
    && Genesis(e, r.states[0])
    && forall i :: 0 <= i < |r.labels| ==> Next(e, r.states[i], r.labels[i], r.states[i + 1])
  }

  // ---- the invariant over every run ----

  /** Every instruction in scope keeps the invariant. */
  lemma StepKeepsInv(e: Env, w: World, tag: byte, x: Ix)
    requires ValidEnv(e) && ValidIx(e, x) && Inv(e, w) && Step(e, w, tag, x).Ok?
    ensures Inv(e, Step(e, w, tag, x).value)
  {
    hide Inv, ValidIx, ValidEnv, Exec;
    match tag
    case 0 => OpenSwapKeepsInv(e, x, w);
    case 1 => FillKeepsInv(e, x, w);
    case 2 => CancelSwapKeepsInv(e, x, w);
    case 3 => ExpireKeepsInv(e, x, w);
    case 4 => MakeOfferKeepsInv(e, x, w);
    case 5 => AcceptOfferKeepsInv(e, x, w);
    case 6 => WithdrawOfferKeepsInv(e, x, w);
    case 7 => ExpireOfferKeepsInv(e, x, w);
    case 8 => InitConfigKeepsInv(e, x, w);
    case 9 => UpdateConfigKeepsInv(e, x, w);
    case 10 => InitFeeVaultKeepsInv(e, x, w);
    case 11 => SweepFeesKeepsInv(e, x, w);
    case 12 => BasketInvariant.OpenBasketKeepsInv(e, x, w);
    case 13 => FillBasketKeepsInv(e, x, w);
    case 14 => ClaimBearerKeepsInv(e, x, w);
    case 15 => RewrapKeepsInv(e, x, w);
    case 16 => CancelBasketKeepsInv(e, x, w);
    case 17 => ExpireBasketKeepsInv(e, x, w);
    case 26 => ListKeepsInv(e, x, w);
    case 27 => FillListingKeepsInv(e, x, w);
    case 28 => CancelListingKeepsInv(e, x, w);
    case 29 => ExpireListingKeepsInv(e, x, w);
    case 38 => SettleOrderKeepsInv(e, x, w);
    case 41 => SettleBidKeepsInv(e, x, w);
    case _ =>
  }

  lemma OutsideRecordOk(e: Env, w: World, v: World, k: Key)
    requires Outside(e, w, v) && k in v.records && RecordOk(e, w.tokens, k, v.records[k])
    ensures RecordOk(e, v.tokens, k, v.records[k])
  {
    hide WellFormed, Legs;
    var b := v.records[k];
    if Live(b) {
      forall i | 0 <= i < |Legs(e, k, b)|
        ensures var leg := Legs(e, k, b)[i]; Holds(v.tokens, leg.vault, k, leg.mint, leg.amount)
      {
        var leg := Legs(e, k, b)[i];
        assert Holds(w.tokens, leg.vault, k, leg.mint, leg.amount);
      }
    }
  }

  lemma OutsideKeepsInv(e: Env, w: World, v: World)
    requires Inv(e, w) && Outside(e, w, v)
    ensures Inv(e, v)
  {
    hide RecordOk, Derived, Holds;
    forall k | k in v.records
      ensures k !in v.tokens && RecordOk(e, v.tokens, k, v.records[k])
    {
      OutsideRecordOk(e, w, v, k);
    }
  }

  lemma GenesisInv(e: Env, w: World)
    requires Genesis(e, w)
    ensures Inv(e, w)
  {
  }

  /** Vaults back open records in every state of every run. */
  lemma {:induction false} RunKeepsInv(e: Env, r: Trace, n: nat)
    requires IsRun(e, r) && n < |r.states|
    ensures Inv(e, r.states[n])
  {
    hide Inv, Step, Outside, ValidEnv;
    if n == 0 {
      GenesisInv(e, r.states[0]);
    } else {
      RunKeepsInv(e, r, n - 1);
      assert Next(e, r.states[n - 1], r.labels[n - 1], r.states[n]);
      match r.labels[n - 1]
      case Call(tag, x) => StepKeepsInv(e, r.states[n - 1], tag, x);
      case Elsewhere => OutsideKeepsInv(e, r.states[n - 1], r.states[n]);
    }
  }
}
