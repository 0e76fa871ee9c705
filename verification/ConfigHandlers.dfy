/** The fee-policy handlers as the program runs them. */
module ConfigHandlers {
  import opened Prelude
  import opened Bytes
  import opened Seeds
  import opened Layout
  import opened Ledger
  import opened FeeConfig
  import opened Bank
  import opened Settle

  /** The five policy writes both config writers make. */
  method WritePolicy(c: array<byte>, d: seq<byte>)
    requires c.Length == CONFIG_LEN && |d| == 75
    modifies c
    ensures c[..] == PolicyPut(old(c[..]), d)
  {
    hide Put;
    CopyInto(c, C_FEE_WALLET, d[0..32]);
    CopyInto(c, C_FEE_BPS, d[32..34]);
    CopyInto(c, C_DELIST_FEE, d[34..42]);
    CopyInto(c, C_ALIAS_PROGRAM, d[42..74]);
    CopyInto(c, C_FEE_SHARDS, [d[74]]);
  }

  /** `init_config`. */
  method InitConfig(b: Bank, x: Ix) returns (r: Outcome)
    modifies b
    ensures Ran(b.env, old(b.View()), x, FeeConfig.InitConfig(b.env, old(b.View()), x), r, b.View())
  {
    hide Performed, Exec, PolicyPut, Put;
    ghost var w := b.View();
    var d, a := x.data, x.accounts;
    if |d| != 75 {
      return Fail(InvalidInstructionData);
    }
    if U16At(d, 32) > BPS_DENOM {
      return Fail(InvalidArgument);
    }
    if |a| != 3 {
      return Fail(NotEnoughAccountKeys);
    }
    var admin, config := a[0], a[1];
    if admin !in x.signers {
      return Fail(MissingRequiredSignature);
    }
    var p := Find(b.env.derive, ConfigSeed);
    if p.Err? || p.value.key != config {
      return Fail(InvalidSeeds);
    }
    ghost var create, write := [NewRecord(config, CONFIG_LEN)], [Write(config, ConfigImage(admin, d, p.value.bump))];
    assert create + write == [create[0], write[0]];
    r := b.CreatePda(x.signers, config, CONFIG_LEN);
    if r.Fail? {
      Halt(b.env, x.signers, w, create, write, r, b.View());
      return;
    }
    ghost var u := b.View();
    var c := b.Borrow(config);
    CopyInto(c, C_ADMIN, admin);
    WritePolicy(c, d);
    CopyInto(c, C_BUMP, [p.value.bump]);
    r := b.Release(x.signers, config, c);
    Then(b.env, x.signers, w, create, u, write, r, b.View());
  }

  /** `update_config`. */
  method UpdateConfig(b: Bank, x: Ix) returns (r: Outcome)
    modifies b
    ensures Ran(b.env, old(b.View()), x, FeeConfig.UpdateConfig(b.env, old(b.View()), x), r, b.View())
  {
    hide Performed, Exec, PolicyPut;
    var d, a := x.data, x.accounts;
    if |d| != 75 {
      return Fail(InvalidInstructionData);
    }
    if U16At(d, 32) > BPS_DENOM {
      return Fail(InvalidArgument);
    }
    if |a| != 2 {
      return Fail(NotEnoughAccountKeys);
    }
    var admin, config := a[0], a[1];
    if admin !in x.signers {
      return Fail(MissingRequiredSignature);
    }
    if config !in b.records {
      return Fail(IllegalOwner);
    }
    var p := Find(b.env.derive, ConfigSeed);
    if p.Err? || p.value.key != config {
      return Fail(InvalidSeeds);
    }
    if |b.records[config]| != CONFIG_LEN || KeyAt(b.records[config], C_ADMIN) != admin {
      return Fail(InvalidArgument);
    }
    var c := b.Borrow(config);
    WritePolicy(c, d);
    r := b.Release(x.signers, config, c);
  }

  /** `init_fee_vault`. */
  method InitFeeVault(b: Bank, x: Ix) returns (r: Outcome)
    modifies b
    ensures Ran(b.env, old(b.View()), x, FeeConfig.InitFeeVault(b.env, old(b.View()), x), r, b.View())
  {
    hide Performed, Exec;
    var a := x.accounts;
    if |x.data| != 1 {
      return Fail(InvalidInstructionData);
    }
    if |a| != 5 {
      return Fail(NotEnoughAccountKeys);
    }
    var payer, vault, mint := a[0], a[1], a[2];
    if payer !in x.signers {
      return Fail(MissingRequiredSignature);
    }
    var config, p := Find(b.env.derive, ConfigSeed), Find(b.env.derive, FeeVaultSeed(mint, x.data[0]));
    if config.Err? || p.Err? || p.value.key != vault {
      return Fail(InvalidSeeds);
    }
    r := b.TokenInit(x.signers, vault, mint, config.value.key);
  }

  /** `sweep_fees`. */
  method SweepFees(b: Bank, x: Ix) returns (r: Outcome)
    modifies b
    ensures Ran(b.env, old(b.View()), x, FeeConfig.SweepFees(b.env, old(b.View()), x), r, b.View())
  {
    hide Performed, Exec, IsTokenAccount;
    var a := x.accounts;
    if |x.data| != 1 {
      return Fail(InvalidInstructionData);
    }
    if |a| != 6 {
      return Fail(NotEnoughAccountKeys);
    }
    var caller, vault, mint, config, dest := a[0], a[1], a[2], a[3], a[4];
    if caller !in x.signers {
      return Fail(MissingRequiredSignature);
    }
    var p := Find(b.env.derive, FeeVaultSeed(mint, x.data[0]));
    if p.Err? || p.value.key != vault {
      return Fail(InvalidSeeds);
    }
    if config !in b.records {
      return Fail(IllegalOwner);
    }
    var cfg := Find(b.env.derive, ConfigSeed);
    if cfg.Err? || cfg.value.key != config {
      return Fail(InvalidSeeds);
    }
    if |b.records[config]| != CONFIG_LEN {
      return Fail(InvalidAccountData);
    }
    if !IsTokenAccount(b.View(), dest, mint, KeyAt(b.records[config], C_FEE_WALLET)) {
      return Fail(InvalidArgument);
    }
    if vault !in b.tokens {
      return Fail(InvalidAccountData);
    }
    var amount := b.tokens[vault].amount;
    if amount == 0 {
      NothingToDo(b.env, x.signers, b.View());
      return Pass;
    }
    if mint !in b.env.mints {
      return Fail(InvalidAccountData);
    }
    r := b.TokenTransfer(x.signers, vault, mint, dest, Seeded(config, ConfigSeed, cfg.value.bump), amount);
  }
}
