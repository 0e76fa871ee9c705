/** The entrypoint: dispatch on the instruction tag; a refused instruction leaves no trace. */
module Program {
  import opened Prelude
  import opened Bytes
  import opened Ledger
  import opened FeeConfig
  import opened Machine
  import opened Bank
  import opened Settle
  import Runs
  import SwapHandlers
  import OfferHandlers
  import ConfigHandlers
  import BasketHandlers
  import ListingHandlers
  import OrderHandlers
  import Swaps
  import Offers
  import Baskets
  import Listings
  import Orders

  lemma NoHandler(e: Env, w: World, tag: byte, x: Ix, v: World)
    requires tag > 17 && tag !in {26, 27, 28, 29, 38, 41}
    ensures Ran(e, w, x, PlanOf(e, w, tag, x), Fail(InvalidInstructionData), v)
  {
  }

  /** The handler of a tag ran, if the tag has one. */
  method Dispatch(b: Bank, tag: byte, x: Ix) returns (r: Outcome)
    modifies b
    ensures Ran(b.env, old(b.View()), x, PlanOf(b.env, old(b.View()), tag, x), r, b.View())
  {
    hide Ran, Swaps.OpenSwap, Swaps.Fill, Swaps.CancelSwap, Swaps.Expire, Offers.MakeOffer, Offers.AcceptOffer,
        Offers.WithdrawOffer, Offers.ExpireOffer,
         InitConfig, UpdateConfig, InitFeeVault, SweepFees, Baskets.OpenBasket, Baskets.FillBasket,
             Baskets.ClaimBearer, Baskets.Rewrap,
         Baskets.CancelBasket, Baskets.ExpireBasket, Listings.List, Listings.FillListing, Listings.CancelListing,
             Listings.ExpireListing,
         Orders.SettleSignedOrder, Orders.SettleSignedBid;
    match tag
    case 0 => r := SwapHandlers.OpenSwap(b, x);
    case 1 => r := SwapHandlers.Fill(b, x);
    case 2 => r := SwapHandlers.CancelSwap(b, x);
    case 3 => r := SwapHandlers.Expire(b, x);
    case 4 => r := OfferHandlers.MakeOffer(b, x);
    case 5 => r := OfferHandlers.AcceptOffer(b, x);
    case 6 => r := OfferHandlers.WithdrawOffer(b, x);
    case 7 => r := OfferHandlers.ExpireOffer(b, x);
    case 8 => r := ConfigHandlers.InitConfig(b, x);
    case 9 => r := ConfigHandlers.UpdateConfig(b, x);
    case 10 => r := ConfigHandlers.InitFeeVault(b, x);
    case 11 => r := ConfigHandlers.SweepFees(b, x);
    case 12 => r := BasketHandlers.OpenBasket(b, x);
    case 13 => r := BasketHandlers.FillBasket(b, x);
    case 14 => r := BasketHandlers.ClaimBearer(b, x);
    case 15 => r := BasketHandlers.Rewrap(b, x);
    case 16 => r := BasketHandlers.CancelBasket(b, x);
    case 17 => r := BasketHandlers.ExpireBasket(b, x);
    case 26 => r := ListingHandlers.List(b, x);
    case 27 => r := ListingHandlers.FillListing(b, x);
    case 28 => r := ListingHandlers.CancelListing(b, x);
    case 29 => r := ListingHandlers.ExpireListing(b, x);
    case 38 => r := OrderHandlers.SettleSignedOrder(b, x);
    case 41 => r := OrderHandlers.SettleSignedBid(b, x);
    case _ => {
      r := Fail(InvalidInstructionData);
      NoHandler(b.env, b.View(), tag, x, b.View());
    }
  }

  /** `process`: the whole instruction, or none of it. */
  method Process(b: Bank, tag: byte, x: Ix) returns (r: Outcome)
    modifies b
    ensures r.Pass? ==> Step(b.env, old(b.View()), tag, x) == Ok(b.View())
    ensures r.Fail? ==> Step(b.env, old(b.View()), tag, x) == Err(r.error) && b.View() == old(b.View())
  {
    hide PlanOf, Exec;
    var before := b.View();
    r := Dispatch(b, tag, x);
    if r.Fail? {
      b.tokens, b.records, b.drained, b.now, b.log := before.tokens, before.records, before.drained, before.now,
          before.log;
    }
  }

  /** An instruction processed in a state that satisfies the invariant leaves one that does. */
  method ProcessSafely(b: Bank, tag: byte, x: Ix) returns (r: Outcome)
    requires ValidEnv(b.env) && ValidIx(b.env, x) && Inv(b.env, b.View())
    modifies b
    ensures Inv(b.env, b.View())
    ensures r.Fail? ==> b.View() == old(b.View())
    ensures r.Pass? ==> Runs.Next(b.env, old(b.View()), Runs.Call(tag, x), b.View())
  {
    hide Inv, ValidEnv, ValidIx, Step;
    r := Process(b, tag, x);
    if r.Pass? {
      Runs.StepKeepsInv(b.env, old(b.View()), tag, x);
    }
  }
}
