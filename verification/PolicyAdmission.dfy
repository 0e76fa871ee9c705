/** When the fee-policy instructions are accepted (tags 8-11), in terms of payload bytes, record bytes and token
    accounts alone. */
module PolicyAdmission {
  import opened Prelude
  import opened Bytes
  import opened Seeds
  import opened Layout
  import opened Ledger
  import opened FeeConfig
  import opened Machine
  import opened Shapes
  import opened Carry
  import opened Admission

  // ---- init_config and update_config ----

  predicate MayInitConfig(e: Env, w: World, x: Ix) {
    var d, a := x.data, x.accounts;
    && |d| == 75 && U16At(d, 32) <= 10_000 && |a| == 3 && a[0] in x.signers && At(e, ConfigSeed, a[1])
    && a[1] !in w.records && a[1] !in w.tokens
  }

  predicate MayUpdateConfig(e: Env, w: World, x: Ix) {
    var d, a := x.data, x.accounts;
    && |d| == 75 && U16At(d, 32) <= 10_000 && |a| == 2 && a[0] in x.signers && IsConfig(e, w, a[1])
    && KeyAt(w.records[a[1]], 0) == a[0]
  }

  lemma PolicyGates(e: Env, w: World, x: Ix)
    ensures InitConfig(e, w, x).Ok? <==>
            && |x.data| == 75 && U16At(x.data, 32) <= 10_000 && |x.accounts| == 3 && x.accounts[0] in x.signers
            && At(e, ConfigSeed, x.accounts[1])
    ensures UpdateConfig(e, w, x).Ok? <==> MayUpdateConfig(e, w, x)
  {
    hide Find, ConfigImage, PolicyPut;
  }

  /** A policy is first set exactly once, by whoever signs, at the config's address and at a rate of at most 100%. */
  lemma InitConfigAccepted(e: Env, w: World, x: Ix)
    ensures Step(e, w, 8, x).Ok? <==> MayInitConfig(e, w, x)
    ensures Step(e, w, 8, x).Ok? ==> Step(e, w, 8, x).value.tokens == w.tokens && Step(e, w, 8, x).value.log == w.log
  {
    hide InitConfig, UpdateConfig, At, Exec, ConfigImage, AllSound;
    PolicyPlans(e, w, x);
    PolicyGates(e, w, x);
    if InitConfig(e, w, x).Ok? {
      var p := InitConfigShape(e, x, w);
      var image, r := ConfigImage(x.accounts[0], x.data, p.bump), w.records[p.key := Zeros(CONFIG_LEN)];
      var write := Write(p.key, image);
      assert InitConfig(e, w, x).value == [NewRecord(p.key, CONFIG_LEN)] + ([write] + []);
      CreateThen(e, x.signers, w, p.key, CONFIG_LEN, [write] + []);
      Cons(e, x.signers, r, write, []);
      Nil(e, x.signers, r);
    }
  }

  /** It is retuned exactly by the admin it records, at a rate of at most 100%. */
  lemma UpdateConfigAccepted(e: Env, w: World, x: Ix)
    ensures Step(e, w, 9, x).Ok? <==> MayUpdateConfig(e, w, x)
    ensures Step(e, w, 9, x).Ok? ==> Step(e, w, 9, x).value.tokens == w.tokens && Step(e, w, 9, x).value.log == w.log
  {
    hide InitConfig, UpdateConfig, IsConfig, Exec, PolicyPut, AllSound;
    PolicyPlans(e, w, x);
    PolicyGates(e, w, x);
    if UpdateConfig(e, w, x).Ok? {
      var p := UpdateConfigShape(e, x, w);
      var write := Write(p.key, PolicyPut(w.records[p.key], x.data));
      assert UpdateConfig(e, w, x).value == [write] + [];
      ExecByCarry(e, x.signers, w, [write] + []);
      Cons(e, x.signers, w.records, write, []);
      Nil(e, x.signers, w.records);
    }
  }

  // ---- init_fee_vault and sweep_fees ----

  predicate FeeVaultTerms(e: Env, x: Ix) {
    var d, a := x.data, x.accounts;
    && |d| == 1 && |a| == 5 && a[0] in x.signers && At(e, FeeVaultSeed(a[2], d[0]), a[1])
    && Find(e.derive, ConfigSeed).Ok?
  }

  lemma FeeVaultGates(e: Env, w: World, x: Ix)
    ensures InitFeeVault(e, w, x).Ok? <==> FeeVaultTerms(e, x)
  {
    hide Find;
  }

  /** A shard vault is opened exactly once, at the address of its mint and shard. */
  lemma InitFeeVaultAccepted(e: Env, w: World, x: Ix)
    ensures Step(e, w, 10, x).Ok? <==>
            && FeeVaultTerms(e, x) && x.accounts[1] !in w.records && x.accounts[1] !in w.tokens
            && x.accounts[2] in e.mints
    ensures Step(e, w, 10, x).Ok? ==>
            var a, v := x.accounts, Step(e, w, 10, x).value;
            && v.tokens == w.tokens[a[1] := Token(a[2], Address(e.derive, ConfigSeed), None, 0, 0)] && v.log == w.log
  {
    hide InitFeeVault, Find, Exec, AllSound;
    PolicyPlans(e, w, x);
    FeeVaultGates(e, w, x);
    if InitFeeVault(e, w, x).Ok? {
      var p, cfg := InitFeeVaultShape(e, x, w);
      var begin := NewToken(p.key, x.accounts[2], cfg.key);
      assert InitFeeVault(e, w, x).value == [begin] + [];
      ExecByCarry(e, x.signers, w, [begin] + []);
      Cons(e, x.signers, w.records, begin, []);
      Nil(e, x.signers, w.records);
      assert Touches([begin] + []) == [Begin(p.key, x.accounts[2], cfg.key)];
      CarryOne(w.tokens, Begin(p.key, x.accounts[2], cfg.key));
    }
  }

  /** The vault of this mint and shard, open; the config; an account of its wallet. */
  predicate SweepTerms(e: Env, w: World, x: Ix) {
    var d, a := x.data, x.accounts;
    && |d| == 1 && |a| == 6 && a[0] in x.signers && At(e, FeeVaultSeed(a[2], d[0]), a[1]) && a[1] in w.tokens
    && IsConfig(e, w, a[3]) && HoldsToken(w, a[4], a[2], KeyAt(w.records[a[3]], 32))
    && (w.tokens[a[1]].amount > 0 ==> a[2] in e.mints)
  }

  lemma SweepGates(e: Env, w: World, x: Ix)
    ensures SweepFees(e, w, x).Ok? <==> SweepTerms(e, w, x)
  {
    hide Find;
  }

  lemma NoEffects(e: Env, signers: set<Key>, w: World)
    ensures Exec(e, signers, w, []) == Ok(w)
  {
  }

  /** The whole vault to the wallet's account, under the config address. */
  function SweepTouches(w: World, x: Ix): seq<Touch>
    requires |x.accounts| == 6 && x.accounts[1] in w.tokens
  {
    var a := x.accounts;
    [Pay(a[1], a[2], a[4], a[3], w.tokens[a[1]].amount)]
  }

  /** A sweep is accepted exactly when its terms hold and, unless the vault is empty, the token program moves all
      of it. */
  lemma SweepAccepted(e: Env, w: World, x: Ix)
    ensures Step(e, w, 11, x).Ok? <==>
            && SweepTerms(e, w, x)
            && (w.tokens[x.accounts[1]].amount > 0 ==> CarryOut(w.tokens, SweepTouches(w, x)).Some?)
    ensures SweepTerms(e, w, x) && Step(e, w, 11, x).Ok? ==>
            var a, v := x.accounts, Step(e, w, 11, x).value;
            if w.tokens[a[1]].amount == 0 then v == w else
              && Some(v.tokens) == CarryOut(w.tokens, SweepTouches(w, x))
              && v.log == w.log + [Move(a[1], a[2], a[4], a[3], w.tokens[a[1]].amount)]
  {
    hide SweepFees, Find, Exec, AllSound, HoldsToken, CarryOut;
    SalePlans(e, w, x);
    SweepGates(e, w, x);
    if SweepFees(e, w, x).Ok? {
      var vault, mint, dest, cfg := SweepFeesShape(e, x, w);
      var amount := w.tokens[vault].amount;
      if amount == 0 {
        NoEffects(e, x.signers, w);
      } else {
        var move := Transfer(vault, mint, dest, Seeded(cfg.key, ConfigSeed, cfg.bump), amount);
        assert SweepFees(e, w, x).value == [move] + [];
        ExecByCarry(e, x.signers, w, [move] + []);
        Cons(e, x.signers, w.records, move, []);
        Nil(e, x.signers, w.records);
        assert Touches([move] + []) == [Pay(vault, mint, dest, cfg.key, amount)];
      }
    }
  }
}
