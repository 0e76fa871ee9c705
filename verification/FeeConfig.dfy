/** One instruction as the program receives it, the reads every handler shares, and the fee-policy
    handlers (tags 8-11). A handler is a plan: it checks the accounts and the payload against the state,
    and lists the effects it then performs in order. */
module FeeConfig {
  import opened Prelude
  import opened Bytes
  import opened Seeds
  import opened Layout
  import opened Ledger
  import opened SignedMessages

  /** The metadata account a royalty settle presents: not owned by the metadata program, not the
      canonical address for the mint, or genuine with these bytes. */
  datatype MetadataAccount = Foreign | Misplaced | Genuine(data: seq<byte>)

  /** Accounts in the order the handler names them, the keys that signed, the payload after the tag, and
      what the program can only observe: whether the alias account belongs to the caller, the metadata
      account, the instruction just before (when it is the signature program's) and all others. */
  datatype Ix = Ix(accounts: seq<Key>, signers: set<Key>, data: seq<byte>, aliasOk: bool,
                   metadata: MetadataAccount, signature: Option<seq<byte>>, others: seq<seq<byte>>)

  /** What the runtime guarantees of an instruction: program addresses and the zero key do not sign
      transactions, and the native program verified every entry of a signature instruction. */
  ghost predicate ValidIx(e: Env, x: Ix) {
    && ZERO !in x.signers
    && (forall k :: k in x.signers ==> !Derived(e.derive, k))
    && (x.signature.Some? && x.signature.value != [] ==>
          forall i: nat :: i < x.signature.value[0] ==>
            var entry := ReadEntry(x.signature.value, x.others, i);
            entry.Some? && (entry.value.signer, entry.value.message) in e.signed)
  }

  type Plan = Result<seq<Op>>

  /** The token account is of this mint and belongs to this owner. */
  predicate IsTokenAccount(w: World, account: Key, mint: Key, owner: Key) {
    account in w.tokens && w.tokens[account].mint == mint && w.tokens[account].owner == owner
  }

  /** `read_config`. */
  function ReadConfig(e: Env, w: World, config: Key): Result<Config> {
    if config !in w.records then Err(IllegalOwner) else
    var pda :- Find(e.derive, ConfigSeed);
    :- Need(pda.key == config, InvalidSeeds);
    :- Need(|w.records[config]| == CONFIG_LEN, InvalidAccountData);
    Ok(ReadConfigRecord(w.records[config]))
  }

  /** `require_alias`: with no alias program configured the gate is open. */
  function RequireAlias(e: Env, w: World, x: Ix, config: Key): Gate {
    var c := ReadConfig(e, w, config);
    if c.Err? then Shut(c.error) else Need(c.value.aliasProgram == ZERO || x.aliasOk, InvalidArgument)
  }

  /** `verify_fee_dest`: the fee wallet's account, or the shard vault the seed picks. */
  predicate IsFeeDestination(e: Env, w: World, account: Key, mint: Key, c: Config, shardSeed: byte) {
    if c.feeShards == 0 then IsTokenAccount(w, account, mint, c.feeWallet)
    else Find(e.derive, FeeVaultSeed(mint, shardSeed % c.feeShards)).Ok? &&
         Find(e.derive, FeeVaultSeed(mint, shardSeed % c.feeShards)).value.key == account
  }

  /** init_config (tag 8): admin | config | system; payload is the 75-byte policy. */
  function InitConfig(e: Env, w: World, x: Ix): Plan {
    if |x.data| != 75 then Err(InvalidInstructionData) else
    :- Need(U16At(x.data, 32) <= BPS_DENOM, InvalidArgument);
    :- Need(|x.accounts| == 3, NotEnoughAccountKeys);
    var admin, config := x.accounts[0], x.accounts[1];
    :- Need(admin in x.signers, MissingRequiredSignature);
    var pda :- Find(e.derive, ConfigSeed);
    :- Need(pda.key == config, InvalidSeeds);
    Ok([NewRecord(config, CONFIG_LEN), Write(config, ConfigImage(admin, x.data, pda.bump))])
  }

  /** update_config (tag 9): admin | config. */
  function UpdateConfig(e: Env, w: World, x: Ix): Plan {
    if |x.data| != 75 then Err(InvalidInstructionData) else
    :- Need(U16At(x.data, 32) <= BPS_DENOM, InvalidArgument);
    :- Need(|x.accounts| == 2, NotEnoughAccountKeys);
    var admin, config := x.accounts[0], x.accounts[1];
    :- Need(admin in x.signers, MissingRequiredSignature);
    :- Need(config in w.records, IllegalOwner);
    var pda :- Find(e.derive, ConfigSeed);
    :- Need(pda.key == config, InvalidSeeds);
    var c := w.records[config];
    :- Need(|c| == CONFIG_LEN && KeyAt(c, C_ADMIN) == admin, InvalidArgument);
    Ok([Write(config, PolicyPut(c, x.data))])
  }

  /** init_fee_vault (tag 10): payer | fee_vault | want_mint | token_program | system; payload is the shard. */
  function InitFeeVault(e: Env, w: World, x: Ix): Plan {
    if |x.data| != 1 then Err(InvalidInstructionData) else
    :- Need(|x.accounts| == 5, NotEnoughAccountKeys);
    var payer, vault, mint := x.accounts[0], x.accounts[1], x.accounts[2];
    :- Need(payer in x.signers, MissingRequiredSignature);
    var config :- Find(e.derive, ConfigSeed);
    var pda :- Find(e.derive, FeeVaultSeed(mint, x.data[0]));
    :- Need(pda.key == vault, InvalidSeeds);
    Ok([NewToken(vault, mint, config.key)])
  }

  /** sweep_fees (tag 11): caller | fee_vault | want_mint | config | fee_wallet_ata | token_program. */
  function SweepFees(e: Env, w: World, x: Ix): Plan {
    if |x.data| != 1 then Err(InvalidInstructionData) else
    :- Need(|x.accounts| == 6, NotEnoughAccountKeys);
    var caller, vault, mint, config, dest := x.accounts[0], x.accounts[1], x.accounts[2], x.accounts[3], x.accounts[4];
    :- Need(caller in x.signers, MissingRequiredSignature);
    var pda :- Find(e.derive, FeeVaultSeed(mint, x.data[0]));
    :- Need(pda.key == vault, InvalidSeeds);
    :- Need(config in w.records, IllegalOwner);
    var cfg :- Find(e.derive, ConfigSeed);
    :- Need(cfg.key == config, InvalidSeeds);
    :- Need(|w.records[config]| == CONFIG_LEN, InvalidAccountData);
    :- Need(IsTokenAccount(w, dest, mint, KeyAt(w.records[config], C_FEE_WALLET)), InvalidArgument);
    :- Need(vault in w.tokens, InvalidAccountData);
    var amount := w.tokens[vault].amount;
    if amount == 0 then Ok([]) else
    :- Need(mint in e.mints, InvalidAccountData);
    Ok([Transfer(vault, mint, dest, Seeded(config, ConfigSeed, cfg.bump), amount)])
  }
}
