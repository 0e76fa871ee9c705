/** Program-derived addresses: the seed families of the swap program and the derivation oracle. */
module Seeds {
  import opened Prelude
  import opened Bytes

  /** One constructor per `find_program_address` call family. */
  datatype Seed =
    | SwapSeed(party: Key, nonce: Key)
    | VaultSeed(party: Key, nonce: Key)
    | OfferSeed(party: Key, nonce: Key)
    | OVaultSeed(party: Key, nonce: Key)
    | BasketSeed(party: Key, nonce: Key)
    | BVaultSeed(party: Key, nonce: Key, leg: byte)
    | ListingSeed(party: Key, nonce: Key)
    | OrderSeed(party: Key)
    | DoneSeed(party: Key, nonce: Key)
    | FeeVaultSeed(mint: Key, shard: byte)
    | ConfigSeed

  /** The family tag: the first seed slice. */
  function Tag(s: Seed): seq<byte> {
    match s
    case SwapSeed(_, _) => [115, 119, 97, 112]                                    // swap
    case VaultSeed(_, _) => [118, 97, 117, 108, 116]                              // vault
    case OfferSeed(_, _) => [111, 102, 102, 101, 114]                             // offer
    case OVaultSeed(_, _) => [111, 118, 97, 117, 108, 116]                        // ovault
    case BasketSeed(_, _) => [98, 97, 115, 107, 101, 116]                         // basket
    case BVaultSeed(_, _, _) => [98, 118, 97, 117, 108, 116]                      // bvault
    case ListingSeed(_, _) => [108, 105, 115, 116, 105, 110, 103]                 // listing
    case OrderSeed(_) => [111, 114, 100, 101, 114]                                // order
    case DoneSeed(_, _) => [111, 114, 100, 101, 114, 95, 100, 111, 110, 101]      // order_done
    case FeeVaultSeed(_, _) => [102, 101, 101, 95, 118, 97, 117, 108, 116]        // fee_vault
    case ConfigSeed => [99, 111, 110, 102, 105, 103]                              // config
  }

  /** The slices that follow the tag. */
  function Body(s: Seed): seq<byte> {
    match s
    case BVaultSeed(p, n, i) => p + n + [i]
    case OrderSeed(p) => p
    case FeeVaultSeed(m, i) => m + [i]
    case ConfigSeed => []
    case _ => s.party + s.nonce
  }

  /** What is hashed: the seed slices, concatenated without separators, and then the bump. */
  function Preimage(s: Seed, bump: byte): seq<byte> {
    Tag(s) + Body(s) + [bump]
  }

  function Family(s: Seed): nat {
    match s
    case SwapSeed(_, _) => 0
    case VaultSeed(_, _) => 1
    case OfferSeed(_, _) => 2
    case OVaultSeed(_, _) => 3
    case BasketSeed(_, _) => 4
    case BVaultSeed(_, _, _) => 5
    case ListingSeed(_, _) => 6
    case OrderSeed(_) => 7
    case DoneSeed(_, _) => 8
    case FeeVaultSeed(_, _) => 9
    case ConfigSeed => 10
  }

  /** Equal preimages come from the same family: their lengths differ, or one of the first two bytes does. */
  lemma SameFamily(s: Seed, b: byte, t: Seed, c: byte)
    requires Preimage(s, b) == Preimage(t, c)
    ensures Family(s) == Family(t)
  {
    var x, y := Preimage(s, b), Preimage(t, c);
    assert |x| == |y| && x[0] == y[0] && x[1] == y[1];
  }

  /** Within a family the body has fixed-width fields, so it determines them. */
  lemma BodyInjective(s: Seed, t: Seed)
    requires Family(s) == Family(t) && Body(s) == Body(t)
    ensures s == t
  {
    var x, y := Body(s), Body(t);
    if !s.ConfigSeed? {
      assert x[..32] == (if s.FeeVaultSeed? then s.mint else s.party);
      assert y[..32] == (if t.FeeVaultSeed? then t.mint else t.party);
    }
    if s.FeeVaultSeed? {
      assert x[32] == s.shard && y[32] == t.shard;
    } else if !s.ConfigSeed? && !s.OrderSeed? {
      assert x[32..64] == s.nonce && y[32..64] == t.nonce;
      if s.BVaultSeed? {
        assert x[64] == s.leg && y[64] == t.leg;
      }
    }
  }

  /** No two derivation calls hash the same bytes, across all families and bumps. */
  lemma PreimageInjective(s: Seed, b: byte, t: Seed, c: byte)
    requires Preimage(s, b) == Preimage(t, c)
    ensures s == t && b == c
  {
    SameFamily(s, b, t, c);
    var x, y, k := Preimage(s, b), Preimage(t, c), |Tag(s)|;
    assert Tag(s) == Tag(t);
    assert x[k..|x| - 1] == Body(s) && y[k..|y| - 1] == Body(t);
    assert x[|x| - 1] == b && y[|y| - 1] == c;
    BodyInjective(s, t);
  }

  /** The derivation oracle: every preimage evaluated so far that gave an address. A preimage that is
      absent lies on the curve, so it names no program address. */
  type Derivations = map<seq<byte>, Key>

  ghost predicate CollisionFree(t: Derivations) {
    forall x, y {:trigger t[x], t[y]} :: x in t && y in t && t[x] == t[y] ==> x == y
  }

  /** Addresses only this program can sign for. */
  predicate Derived(t: Derivations, k: Key) {
    k in t.Values
  }

  datatype Pda = Pda(key: Key, bump: byte)

  /** `create_program_address(seeds ++ [bump])`. */
  function Create(t: Derivations, s: Seed, bump: byte): (r: Option<Key>)
    ensures r.Some? ==> Derived(t, r.value)
  {
    var x := Preimage(s, bump);
    if x in t then Some(t[x]) else None
  }

  function FindFrom(t: Derivations, s: Seed, bump: byte): (r: Option<Pda>)
    ensures r.Some? ==> Create(t, s, r.value.bump) == Some(r.value.key)
  {
    if Create(t, s, bump).Some? then Some(Pda(Create(t, s, bump).value, bump))
    else if bump == 0 then None
    else FindFrom(t, s, bump - 1)
  }

  /** `find_program_address(seeds)`: the highest bump that names an address. */
  function Find(t: Derivations, s: Seed): (r: Result<Pda>)
    ensures r.Ok? ==> Create(t, s, r.value.bump) == Some(r.value.key)
  {
    var f := FindFrom(t, s, 255);
    if f.Some? then Ok(f.value) else Err(InvalidSeeds)
  }

  lemma {:induction false} FirstFrom(t: Derivations, s: Seed, bump: byte)
    ensures FindFrom(t, s, bump).Some? ==>
        FindFrom(t, s, bump).value.bump <= bump
        && forall b: byte :: FindFrom(t, s, bump).value.bump < b <= bump ==> Create(t, s, b).None?
    ensures FindFrom(t, s, bump).None? ==> forall b: byte :: b <= bump ==> Create(t, s, b).None?
  {
    hide Create;
    if bump > 0 {
      FirstFrom(t, s, bump - 1);
    }
  }

  /** The canonical bump is the highest that names an address, and there is one whenever any bump does. */
  lemma FindIsHighest(t: Derivations, s: Seed, p: Pda)
    ensures Find(t, s) == Ok(p) <==>
        && Create(t, s, p.bump) == Some(p.key)
        && forall b: byte :: p.bump < b ==> Create(t, s, b).None?
    ensures Find(t, s).Err? <==> forall b: byte :: Create(t, s, b).None?
  {
    hide Create, FindFrom;
    FirstFrom(t, s, 255);
  }

  /** The canonical address of a seed; ZERO when there is none. */
  function Address(t: Derivations, s: Seed): Key {
    var f := Find(t, s);
    if f.Ok? then f.value.key else ZERO
  }

  /** One address has one seed and one bump. */
  lemma OneHome(t: Derivations, s: Seed, b: byte, u: Seed, c: byte)
    requires CollisionFree(t)
    requires Create(t, s, b).Some? && Create(t, s, b) == Create(t, u, c)
    ensures s == u && b == c
  {
    assert t[Preimage(s, b)] == t[Preimage(u, c)];
    PreimageInjective(s, b, u, c);
  }
}
