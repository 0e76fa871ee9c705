/** The whole program as a state machine over the ledger, and the invariant of every reachable state. */
module Machine {
  import opened Prelude
  import opened Bytes
  import opened Seeds
  import opened Layout
  import opened Ledger
  import opened FeeConfig
  import Swaps
  import Offers
  import Baskets
  import Listings
  import Orders

  /** The dispatch over the instruction tags in scope. */
  function PlanOf(e: Env, w: World, tag: byte, x: Ix): Plan {
    match tag
    case 0 => Swaps.OpenSwap(e, w, x)
    case 1 => Swaps.Fill(e, w, x)
    case 2 => Swaps.CancelSwap(e, w, x)
    case 3 => Swaps.Expire(e, w, x)
    case 4 => Offers.MakeOffer(e, w, x)
    case 5 => Offers.AcceptOffer(e, w, x)
    case 6 => Offers.WithdrawOffer(e, w, x)
    case 7 => Offers.ExpireOffer(e, w, x)
    case 8 => InitConfig(e, w, x)
    case 9 => UpdateConfig(e, w, x)
    case 10 => InitFeeVault(e, w, x)
    case 11 => SweepFees(e, w, x)
    case 12 => Baskets.OpenBasket(e, w, x)
    case 13 => Baskets.FillBasket(e, w, x)
    case 14 => Baskets.ClaimBearer(e, w, x)
    case 15 => Baskets.Rewrap(e, w, x)
    case 16 => Baskets.CancelBasket(e, w, x)
    case 17 => Baskets.ExpireBasket(e, w, x)
    case 26 => Listings.List(e, w, x)
    case 27 => Listings.FillListing(e, w, x)
    case 28 => Listings.CancelListing(e, w, x)
    case 29 => Listings.ExpireListing(e, w, x)
    case 38 => Orders.SettleSignedOrder(e, w, x)
    case 41 => Orders.SettleSignedBid(e, w, x)
    case _ => Err(InvalidInstructionData)
  }

  function Run(e: Env, w: World, x: Ix, plan: Plan): Result<World> {
    var ops :- plan;
    Exec(e, x.signers, w, ops)
  }

  /** One instruction: it performs every effect of its plan, or none. */
  function Step(e: Env, w: World, tag: byte, x: Ix): Result<World> {
    Run(e, w, x, PlanOf(e, w, tag, x))
  }

  // ---- an instruction runs the plan of its tag ----

  lemma SwapPlans(e: Env, w: World, x: Ix)
    ensures Step(e, w, 0, x) == Run(e, w, x, Swaps.OpenSwap(e, w, x))
    ensures Step(e, w, 1, x) == Run(e, w, x, Swaps.Fill(e, w, x))
    ensures Step(e, w, 4, x) == Run(e, w, x, Offers.MakeOffer(e, w, x))
    ensures Step(e, w, 5, x) == Run(e, w, x, Offers.AcceptOffer(e, w, x))
  {
    hide Swaps.OpenSwap, Swaps.Fill, Offers.MakeOffer, Offers.AcceptOffer, Exec;
  }

  lemma RefundPlans(e: Env, w: World, x: Ix)
    ensures Step(e, w, 2, x) == Run(e, w, x, Swaps.CancelSwap(e, w, x))
    ensures Step(e, w, 3, x) == Run(e, w, x, Swaps.Expire(e, w, x))
    ensures Step(e, w, 6, x) == Run(e, w, x, Offers.WithdrawOffer(e, w, x))
    ensures Step(e, w, 7, x) == Run(e, w, x, Offers.ExpireOffer(e, w, x))
  {
    hide Swaps.CancelSwap, Swaps.Expire, Offers.WithdrawOffer, Offers.ExpireOffer, Exec;
  }

  lemma PolicyPlans(e: Env, w: World, x: Ix)
    ensures Step(e, w, 8, x) == Run(e, w, x, InitConfig(e, w, x))
    ensures Step(e, w, 9, x) == Run(e, w, x, UpdateConfig(e, w, x))
    ensures Step(e, w, 10, x) == Run(e, w, x, InitFeeVault(e, w, x))
  {
    hide InitConfig, UpdateConfig, InitFeeVault, Exec;
  }

  lemma BasketPlans(e: Env, w: World, x: Ix)
    ensures Step(e, w, 13, x) == Run(e, w, x, Baskets.FillBasket(e, w, x))
    ensures Step(e, w, 14, x) == Run(e, w, x, Baskets.ClaimBearer(e, w, x))
    ensures Step(e, w, 15, x) == Run(e, w, x, Baskets.Rewrap(e, w, x))
    ensures Step(e, w, 16, x) == Run(e, w, x, Baskets.CancelBasket(e, w, x))
    ensures Step(e, w, 17, x) == Run(e, w, x, Baskets.ExpireBasket(e, w, x))
  {
    hide Baskets.FillBasket, Baskets.ClaimBearer, Baskets.Rewrap, Baskets.CancelBasket, Baskets.ExpireBasket,
        Exec;
  }

  lemma SalePlans(e: Env, w: World, x: Ix)
    ensures Step(e, w, 11, x) == Run(e, w, x, SweepFees(e, w, x))
    ensures Step(e, w, 26, x) == Run(e, w, x, Listings.List(e, w, x))
    ensures Step(e, w, 27, x) == Run(e, w, x, Listings.FillListing(e, w, x))
    ensures Step(e, w, 38, x) == Run(e, w, x, Orders.SettleSignedOrder(e, w, x))
    ensures Step(e, w, 41, x) == Run(e, w, x, Orders.SettleSignedBid(e, w, x))
  {
    hide SweepFees, Listings.List, Listings.FillListing, Orders.SettleSignedOrder, Orders.SettleSignedBid, Exec;
  }

  lemma DelistPlans(e: Env, w: World, x: Ix)
    ensures Step(e, w, 28, x) == Run(e, w, x, Listings.CancelListing(e, w, x))
    ensures Step(e, w, 29, x) == Run(e, w, x, Listings.ExpireListing(e, w, x))
  {
    hide Listings.CancelListing, Listings.ExpireListing, Exec;
  }

  // ---- what a record locks ----

  datatype Leg = Leg(vault: Key, mint: Key, amount: nat)

  function BasketLeg(e: Env, b: seq<byte>, i: nat): Leg
    requires |b| == BASKET_LEN && i < MAX_LEG
  {
    var k := ReadBasket(b);
    Leg(Address(e.derive, BVaultSeed(k.maker, k.nonce, i)), GiveEntry(b, i).mint, GiveEntry(b, i).amount)
  }

  /** The vaults that must back a live record, with the amounts it promises. */
  function Legs(e: Env, k: Key, b: seq<byte>): seq<Leg> {
    if |b| == SWAP_LEN then
      var s := ReadSwap(b);
      if Create(e.derive, SwapSeed(s.maker, s.nonce), s.bump) == Some(k)
      then [Leg(Address(e.derive, VaultSeed(s.maker, s.nonce)), s.giveMint, s.giveAmount)] else []
    else if |b| == OFFER_LEN then
      var o := ReadOffer(b);
      [Leg(Address(e.derive, OVaultSeed(o.offerer, o.nonce)), o.wantMint, o.wantAmount)]
    else if |b| == BASKET_LEN && ReadBasket(b).giveCount <= MAX_LEG then
      var n := ReadBasket(b).giveCount;
      seq(n, i requires 0 <= i < n => BasketLeg(e, b, i))
    else []
  }

  // ---- the invariant ----

  /** The seed a record of this length was created under; its party is never the zero key. */
  predicate IsHome(e: Env, k: Key, length: nat, s: Seed, bump: byte) {
    && Create(e.derive, s, bump) == Some(k)
    && match s
       case SwapSeed(p, _) => p != ZERO && length == SWAP_LEN
       case ListingSeed(p, _) => p != ZERO && length == SWAP_LEN
       case OfferSeed(p, _) => p != ZERO && length == OFFER_LEN
       case BasketSeed(p, _) => p != ZERO && length == BASKET_LEN
       case DoneSeed(_, _) => length == MARKER_LEN
       case ConfigSeed => length == CONFIG_LEN
       case _ => false
  }

  ghost predicate Homed(e: Env, k: Key, length: nat) {
    exists s, bump :: IsHome(e, k, length, s, bump)
  }

  /** A live record sits at the address its own fields derive, is open, and is within the program's limits. */
  predicate WellFormed(e: Env, k: Key, b: seq<byte>) {
    if |b| == SWAP_LEN then
      var s := ReadSwap(b);
      && s.status == STATUS_OPEN
      && (Create(e.derive, SwapSeed(s.maker, s.nonce), s.bump) == Some(k)
          || Create(e.derive, ListingSeed(s.maker, s.nonce), s.bump) == Some(k))
      && !Derived(e.derive, s.maker)
    else if |b| == OFFER_LEN then
      var o := ReadOffer(b);
      && o.status == STATUS_OPEN
      && Create(e.derive, OfferSeed(o.offerer, o.nonce), o.bump) == Some(k)
      && !Derived(e.derive, o.offerer)
    else if |b| == BASKET_LEN then
      var t := ReadBasket(b);
      && t.status == STATUS_OPEN
      && Create(e.derive, BasketSeed(t.maker, t.nonce), t.bump) == Some(k)
      && !Derived(e.derive, t.maker)
      && 1 <= t.giveCount <= MAX_LEG && t.wantCount <= MAX_LEG
      && (t.authMode == AUTH_NORMAL || t.authMode == AUTH_BEARER)
    else
      && |b| == CONFIG_LEN
      && ReadConfigRecord(b).feeBps <= BPS_DENOM
  }

  /** Every vault of the record belongs to the record's own address, has no delegate, and holds at least
      the promised amount of the promised mint. */
  ghost predicate Backed(e: Env, t: map<Key, Token>, k: Key, b: seq<byte>) {
    forall i :: 0 <= i < |Legs(e, k, b)| ==> var leg := Legs(e, k, b)[i]; Holds(t, leg.vault, k, leg.mint, leg.amount)
  }

  ghost predicate RecordOk(e: Env, t: map<Key, Token>, k: Key, b: seq<byte>) {
    && Homed(e, k, |b|)
    && (if Live(b) then WellFormed(e, k, b) && Backed(e, t, k, b) else b == Zeros(|b|))
  }

  ghost predicate Inv(e: Env, w: World) {
    && (forall k {:trigger k in w.records} :: k in w.records ==>
        k !in w.tokens && RecordOk(e, w.tokens, k, w.records[k]))
    && (forall k :: k in w.drained ==> k in w.records && !Live(w.records[k]) && |w.records[k]| != MARKER_LEN)
  }

  // ---- how effects are confined ----

  /** Authorities come from `auths`, record effects touch only `records`. */
  predicate Confined(op: Op, auths: set<Key>, records: set<Key>) {
    match op
    case Transfer(_, _, _, auth, _) => auth.key in auths
    case CloseToken(_, auth) => auth.key in auths
    case Approve(_, _, auth, _) => auth.key in auths
    case Revoke(_, auth) => auth.key in auths
    case NewRecord(k, _) => k in records
    case Write(k, _) => k in records
    case Wipe(k) => k in records
    case _ => true
  }

  predicate AllConfined(ops: seq<Op>, auths: set<Key>, records: set<Key>) {
    forall op :: op in ops ==> Confined(op, auths, records)
  }

  lemma {:induction false} RecordsElsewhere(r: map<Key, seq<byte>>, ops: seq<Op>, auths: set<Key>, records: set<Key>)
    requires AllConfined(ops, auths, records)
    ensures forall k :: k !in records ==> (k in RecordsAfter(r, ops) <==> k in r)
    ensures forall k :: k !in records && k in r ==> RecordsAfter(r, ops)[k] == r[k]
    decreases |ops|
  {
    if ops != [] {
      assert Confined(ops[0], auths, records);
      RecordsElsewhere(RecordStep(r, ops[0]), ops[1..], auths, records);
    }
  }

  lemma {:induction false} WipedWithin(ops: seq<Op>, auths: set<Key>, records: set<Key>)
    requires AllConfined(ops, auths, records)
    ensures Wiped(ops) <= records
  {
    if ops != [] {
      assert Confined(ops[0], auths, records);
      WipedWithin(ops[1..], auths, records);
    }
  }

  /** Program records and token accounts never share an address. */
  lemma {:induction false} StaysDisjoint(e: Env, signers: set<Key>, w: World, ops: seq<Op>)
    requires Exec(e, signers, w, ops).Ok?
    requires forall k :: k in w.records ==> k !in w.tokens
    ensures var v := Exec(e, signers, w, ops).value; forall k :: k in v.records ==> k !in v.tokens
    decreases |ops|
  {
    if ops != [] {
      StaysDisjoint(e, signers, Apply(e, signers, w, ops[0]).value, ops[1..]);
    }
  }

  lemma BackingSurvives(e: Env, signers: set<Key>, w: World, ops: seq<Op>, k: Key, b: seq<byte>)
    requires Exec(e, signers, w, ops).Ok? && Backed(e, w.tokens, k, b)
    requires Legs(e, k, b) != [] ==> Spares(ops, k)
    ensures Backed(e, Exec(e, signers, w, ops).value.tokens, k, b)
  {
    var legs := Legs(e, k, b);
    forall i | 0 <= i < |legs|
      ensures Holds(Exec(e, signers, w, ops).value.tokens, legs[i].vault, k, legs[i].mint, legs[i].amount)
    {
      ExecKeepsHolding(e, signers, w, ops, legs[i].vault, k, legs[i].mint, legs[i].amount);
    }
  }

  lemma UntouchedRecordOk(e: Env, signers: set<Key>, w: World, ops: seq<Op>, auths: set<Key>, records: set<Key>, k: Key)
    requires Exec(e, signers, w, ops).Ok? && AllConfined(ops, auths, records)
    requires k in w.records && k !in records && RecordOk(e, w.tokens, k, w.records[k])
    requires k in auths ==> Legs(e, k, w.records[k]) == []
    ensures RecordOk(e, Exec(e, signers, w, ops).value.tokens, k, w.records[k])
  {
    if Live(w.records[k]) {
      if k !in auths {
        forall i | 0 <= i < |ops|
          ensures !ActsAs(ops[i], k)
        {
          assert ops[i] in ops && Confined(ops[i], auths, records);
        }
      }
      BackingSurvives(e, signers, w, ops, k, w.records[k]);
    }
  }

  /** The frame of every handler: if effects are confined to some records, use only the authority of
      signers, of those records, and of addresses that back nothing, then every other record stays as it
      was and stays backed; so the invariant only has to be shown for the touched records. */
  lemma ConfinedKeepsInv(e: Env, x: Ix, w: World, ops: seq<Op>, auths: set<Key>, records: set<Key>)
    requires ValidEnv(e) && ValidIx(e, x) && Inv(e, w)
    requires Exec(e, x.signers, w, ops).Ok? && AllConfined(ops, auths, records)
    requires forall k :: k in auths && k in w.records && k !in records ==> Legs(e, k, w.records[k]) == []
    requires var v := Exec(e, x.signers, w, ops).value;
             forall k :: k in records ==> k in v.records && RecordOk(e, v.tokens, k, v.records[k])
    requires var v := Exec(e, x.signers, w, ops).value;
             forall k :: k in records && k in v.drained ==> !Live(v.records[k]) && |v.records[k]| != MARKER_LEN
    ensures Inv(e, Exec(e, x.signers, w, ops).value)
  {
    var v := Exec(e, x.signers, w, ops).value;
    ExecRecords(e, x.signers, w, ops);
    RecordsElsewhere(w.records, ops, auths, records);
    WipedWithin(ops, auths, records);
    StaysDisjoint(e, x.signers, w, ops);
    forall k | k in w.records && k !in records
      ensures RecordOk(e, v.tokens, k, w.records[k])
    {
      UntouchedRecordOk(e, x.signers, w, ops, auths, records, k);
    }
  }
}
