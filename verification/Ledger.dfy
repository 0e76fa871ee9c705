/** The chain as the swap program sees it, and the primitive effects of one instruction. */
module Ledger {
  import opened Prelude
  import opened Bytes
  import opened Seeds

  /** A classic, fee-free token account. */
  datatype Token = Token(mint: Key, owner: Key, delegate: Option<Key>, allowance: nat, amount: nat)

  /** One executed token transfer. */
  datatype Move = Move(src: Key, mint: Key, dst: Key, auth: Key, amount: nat)

  /** `records` holds the data of every account the program owns. A closed record has no lamports and
      zeroed data; it is in `drained` until the runtime reaps it. `log` lists the program's transfers. */
  datatype World = World(tokens: map<Key, Token>, records: map<Key, seq<byte>>, drained: set<Key>, now: int,
      log: seq<Move>)

  /** What stays fixed over a run: the derivation oracle, the mint accounts, SHA-256, and the messages
      each key has ever signed. */
  datatype Env = Env(derive: Derivations, mints: set<Key>, hash: seq<byte> -> Key, signed: set<(Key, seq<byte>)>)

  ghost predicate ValidEnv(e: Env) {
    CollisionFree(e.derive) && ZERO !in e.mints
  }

  /** A transfer authority: a signer of the transaction, or a program address signing with its seeds. */
  datatype Authority =
    | Signer(key: Key)
    | Seeded(key: Key, seed: Seed, bump: byte)

  predicate Signed(e: Env, signers: set<Key>, a: Authority) {
    match a
    case Signer(k) => k in signers
    case Seeded(k, s, b) => Create(e.derive, s, b) == Some(k)
  }

  /** The primitive effects, in the order an instruction performs them. `Check` is a condition the
      source tests between effects. */
  datatype Op =
    | Check(ok: bool, error: Error)
    | NewRecord(key: Key, length: nat)
    | NewToken(key: Key, mint: Key, owner: Key)
    | Transfer(src: Key, mint: Key, dst: Key, auth: Authority, amount: nat)
    | CloseToken(key: Key, auth: Authority)
    | Approve(src: Key, delegate: Key, auth: Authority, amount: nat)
    | Revoke(src: Key, auth: Authority)
    | Write(key: Key, data: seq<byte>)
    | Wipe(key: Key)

  // ---- the token program ----

  /** The source account after a transfer; an exhausted delegate is cleared. */
  function Spent(s: Token, auth: Key, amount: nat): Token
    requires amount <= s.amount && (s.delegate == Some(auth) ==> amount <= s.allowance)
  {
    var left := s.(amount := s.amount - amount);
    if s.delegate != Some(auth) then left
    else if s.allowance == amount then left.(delegate := None, allowance := 0)
    else left.(allowance := s.allowance - amount)
  }

  /** `transfer_checked`: the authority is the delegate, within its allowance, or the owner. */
  function TransferTokens(t: map<Key, Token>, src: Key, mint: Key, dst: Key, auth: Key, amount: nat): Result<map<Key,
      Token>> {
    if src !in t || dst !in t then Err(TokenRefused) else
    var s, d := t[src], t[dst];
    :- Need(amount <= s.amount && s.mint == mint && d.mint == mint, TokenRefused);
    :- Need(if s.delegate == Some(auth) then amount <= s.allowance else s.owner == auth, TokenRefused);
    if src == dst then Ok(t) else
    :- Need(d.amount + amount < U64, TokenRefused);
    Ok(t[src := Spent(s, auth, amount)][dst := d.(amount := d.amount + amount)])
  }

  // ---- one effect, and a list of effects ----

  function Apply(e: Env, signers: set<Key>, w: World, op: Op): Result<World> {
    match op
    case Check(ok, error) =>
      :- Need(ok, error);
      Ok(w)
    case NewRecord(k, n) =>
      :- Need(k !in w.records && k !in w.tokens, AccountInUse);
      Ok(w.(records := w.records[k := Zeros(n)]))
    case NewToken(k, mint, owner) =>
      :- Need(k !in w.records && k !in w.tokens, AccountInUse);
      :- Need(mint in e.mints, TokenRefused);
      Ok(w.(tokens := w.tokens[k := Token(mint, owner, None, 0, 0)]))
    case Transfer(src, mint, dst, auth, amount) =>
      :- Need(Signed(e, signers, auth), MissingRequiredSignature);
      var t :- TransferTokens(w.tokens, src, mint, dst, auth.key, amount);
      Ok(w.(tokens := t, log := w.log + [Move(src, mint, dst, auth.key, amount)]))
    case CloseToken(k, auth) =>
      :- Need(Signed(e, signers, auth), MissingRequiredSignature);
      :- Need(k in w.tokens && w.tokens[k].owner == auth.key && w.tokens[k].amount == 0, TokenRefused);
      Ok(w.(tokens := w.tokens - {k}))
    case Approve(src, delegate, auth, amount) =>
      :- Need(Signed(e, signers, auth), MissingRequiredSignature);
      :- Need(src in w.tokens && w.tokens[src].owner == auth.key, TokenRefused);
      Ok(w.(tokens := w.tokens[src := w.tokens[src].(delegate := Some(delegate), allowance := amount)]))
    case Revoke(src, auth) =>
      :- Need(Signed(e, signers, auth), MissingRequiredSignature);
      :- Need(src in w.tokens && w.tokens[src].owner == auth.key, TokenRefused);
      Ok(w.(tokens := w.tokens[src := w.tokens[src].(delegate := None, allowance := 0)]))
    case Write(k, data) =>
      :- Need(k in w.records && |w.records[k]| == |data|, InvalidAccountData);
      Ok(w.(records := w.records[k := data]))
    case Wipe(k) =>
      :- Need(k in w.records, InvalidAccountData);
      Ok(w.(records := w.records[k := Zeros(|w.records[k]|)], drained := w.drained + {k}))
  }

  /** Run the effects in order; the first refusal refuses the whole instruction. */
  function Exec(e: Env, signers: set<Key>, w: World, ops: seq<Op>): Result<World>
    decreases |ops|
  {
    if ops == [] then Ok(w) else
    var v :- Apply(e, signers, w, ops[0]);
    Exec(e, signers, v, ops[1..])
  }

  lemma ExecCons(e: Env, signers: set<Key>, w: World, op: Op, rest: seq<Op>)
    requires Exec(e, signers, w, [op] + rest).Ok?
    ensures Apply(e, signers, w, op).Ok?
    ensures Exec(e, signers, w, [op] + rest) == Exec(e, signers, Apply(e, signers, w, op).value, rest)
  {
    assert ([op] + rest)[1..] == rest;
  }

  lemma {:induction false} ExecAppend(e: Env, signers: set<Key>, w: World, a: seq<Op>, b: seq<Op>)
    ensures Exec(e, signers, w, a + b) == if Exec(e, signers, w, a).Err? then Exec(e, signers, w, a)
        else Exec(e, signers, Exec(e, signers, w, a).value, b)
    decreases |a|
  {
    if a == [] {
      assert a + b == b;
    } else {
      assert (a + b)[1..] == a[1..] + b;
      if Apply(e, signers, w, a[0]).Ok? {
        ExecAppend(e, signers, Apply(e, signers, w, a[0]).value, a[1..], b);
      }
    }
  }

  lemma OneOp(e: Env, signers: set<Key>, w: World, op: Op)
    ensures Exec(e, signers, w, [op]) == Apply(e, signers, w, op)
  {
    assert [op][1..] == [];
    if Apply(e, signers, w, op).Ok? {
      assert Exec(e, signers, Apply(e, signers, w, op).value, []) == Apply(e, signers, w, op);
    }
  }

  lemma ExecSplit(e: Env, signers: set<Key>, w: World, a: seq<Op>, b: seq<Op>)
    requires Exec(e, signers, w, a + b).Ok?
    ensures Exec(e, signers, w, a).Ok?
    ensures Exec(e, signers, Exec(e, signers, w, a).value, b) == Exec(e, signers, w, a + b)
  {
    ExecAppend(e, signers, w, a, b);
  }

  // ---- conservation ----

  function Counted(t: Token, mint: Key): nat {
    if t.mint == mint then t.amount else 0
  }

  /** How much of a mint exists. */
  ghost function Supply(t: map<Key, Token>, mint: Key): nat {
    if t == map[] then 0 else
    var k :| k in t;
    Counted(t[k], mint) + Supply(t - {k}, mint)
  }

  lemma {:induction false} SupplySplit(t: map<Key, Token>, k: Key, mint: Key)
    requires k in t
    ensures Supply(t, mint) == Counted(t[k], mint) + Supply(t - {k}, mint)
    decreases |t|
  {
    var c :| c in t && Supply(t, mint) == Counted(t[c], mint) + Supply(t - {c}, mint);
    if c != k {
      SupplySplit(t - {c}, k, mint);
      SupplySplit(t - {k}, c, mint);
      assert t - {c} - {k} == t - {k} - {c};
    }
  }

  lemma SupplyUpdate(t: map<Key, Token>, k: Key, v: Token, mint: Key)
    ensures Supply(t[k := v], mint) == Counted(v, mint) + (if k in t then Supply(t, mint) - Counted(t[k], mint)
        else Supply(t, mint))
  {
    SupplySplit(t[k := v], k, mint);
    assert t[k := v] - {k} == t - {k};
    if k in t {
      SupplySplit(t, k, mint);
    } else {
      assert t - {k} == t;
    }
  }

  lemma TransferKeepsSupply(t: map<Key, Token>, src: Key, m: Key, dst: Key, auth: Key, amount: nat, mint: Key)
    requires TransferTokens(t, src, m, dst, auth, amount).Ok?
    ensures Supply(TransferTokens(t, src, m, dst, auth, amount).value, mint) == Supply(t, mint)
  {
    if src != dst {
      var s, d := Spent(t[src], auth, amount), t[dst].(amount := t[dst].amount + amount);
      SupplyUpdate(t, src, s, mint);
      SupplyUpdate(t[src := s], dst, d, mint);
    }
  }

  lemma ApplyKeepsSupply(e: Env, signers: set<Key>, w: World, op: Op, mint: Key)
    requires Apply(e, signers, w, op).Ok?
    ensures Supply(Apply(e, signers, w, op).value.tokens, mint) == Supply(w.tokens, mint)
  {
    var t := w.tokens;
    match op
    case NewToken(k, m, owner) => SupplyUpdate(t, k, Token(m, owner, None, 0, 0), mint);
    case Transfer(src, m, dst, auth, amount) => TransferKeepsSupply(t, src, m, dst, auth.key, amount, mint);
    case CloseToken(k, auth) => SupplySplit(t, k, mint);
    case Approve(src, delegate, auth, amount) => SupplyUpdate(t, src,
        t[src].(delegate := Some(delegate), allowance := amount), mint);
    case Revoke(src, auth) => SupplyUpdate(t, src, t[src].(delegate := None, allowance := 0), mint);
    case _ =>
  }

  /** No list of effects creates or loses a token, whatever the accounts alias. */
  lemma {:induction false} ExecKeepsSupply(e: Env, signers: set<Key>, w: World, ops: seq<Op>, mint: Key)
    requires Exec(e, signers, w, ops).Ok?
    ensures Supply(Exec(e, signers, w, ops).value.tokens, mint) == Supply(w.tokens, mint)
    decreases |ops|
  {
    if ops != [] {
      ApplyKeepsSupply(e, signers, w, ops[0], mint);
      ExecKeepsSupply(e, signers, Apply(e, signers, w, ops[0]).value, ops[1..], mint);
    }
  }

  // ---- what only one key can touch ----

  /** An account of `owner`, with no delegate, holding at least `amount` of `mint`. */
  predicate Holds(t: map<Key, Token>, account: Key, owner: Key, mint: Key, amount: nat) {
    account in t && t[account].owner == owner && t[account].delegate.None? && t[account].mint == mint
        && amount <= t[account].amount
  }

  predicate ActsAs(op: Op, k: Key) {
    (op.Transfer? || op.CloseToken? || op.Approve? || op.Revoke?) && op.auth.key == k
  }

  /** No effect in the list uses the authority of `k`. */
  predicate Spares(ops: seq<Op>, k: Key) {
    forall i :: 0 <= i < |ops| ==> !ActsAs(ops[i], k)
  }

  lemma ApplyKeepsHolding(e: Env, signers: set<Key>, w: World, op: Op, account: Key, owner: Key, mint: Key, amount: nat)
    requires Apply(e, signers, w, op).Ok? && !ActsAs(op, owner) && Holds(w.tokens, account, owner, mint, amount)
    ensures Holds(Apply(e, signers, w, op).value.tokens, account, owner, mint, amount)
  {
  }

  /** An undelegated account only grows while its owner does not act, whatever else happens. */
  lemma {:induction false} ExecKeepsHolding(e: Env, signers: set<Key>, w: World, ops: seq<Op>, account: Key,
      owner: Key, mint: Key, amount: nat)
    requires Exec(e, signers, w, ops).Ok? && Spares(ops, owner) && Holds(w.tokens, account, owner, mint, amount)
    ensures Holds(Exec(e, signers, w, ops).value.tokens, account, owner, mint, amount)
    decreases |ops|
  {
    if ops != [] {
      ApplyKeepsHolding(e, signers, w, ops[0], account, owner, mint, amount);
      assert Spares(ops[1..], owner);
      ExecKeepsHolding(e, signers, Apply(e, signers, w, ops[0]).value, ops[1..], account, owner, mint, amount);
    }
  }

  // ---- records and log depend on the effects alone ----

  function RecordStep(r: map<Key, seq<byte>>, op: Op): map<Key, seq<byte>> {
    match op
    case NewRecord(k, n) => r[k := Zeros(n)]
    case Write(k, data) => r[k := data]
    case Wipe(k) => if k in r then r[k := Zeros(|r[k]|)] else r
    case _ => r
  }

  function RecordsAfter(r: map<Key, seq<byte>>, ops: seq<Op>): map<Key, seq<byte>>
    decreases |ops|
  {
    if ops == [] then r else RecordsAfter(RecordStep(r, ops[0]), ops[1..])
  }

  function Wiped(ops: seq<Op>): set<Key> {
    if ops == [] then {} else (if ops[0].Wipe? then {ops[0].key} else {}) + Wiped(ops[1..])
  }

  function MoveOf(op: Op): seq<Move> {
    if op.Transfer? then [Move(op.src, op.mint, op.dst, op.auth.key, op.amount)] else []
  }

  function Moves(ops: seq<Op>): seq<Move> {
    if ops == [] then [] else MoveOf(ops[0]) + Moves(ops[1..])
  }

  lemma {:induction false} MovesSplit(a: seq<Op>, b: seq<Op>)
    ensures Moves(a + b) == Moves(a) + Moves(b)
  {
    if a == [] {
      assert a + b == b;
    } else {
      assert (a + b)[1..] == a[1..] + b;
      MovesSplit(a[1..], b);
    }
  }

  lemma ApplyRecords(e: Env, signers: set<Key>, w: World, op: Op)
    requires Apply(e, signers, w, op).Ok?
    ensures var v := Apply(e, signers, w, op).value;
            && v.records == RecordStep(w.records, op)
            && v.drained == w.drained + (if op.Wipe? then {op.key} else {})
            && v.now == w.now
            && v.log == w.log + MoveOf(op)
  {
  }

  lemma {:induction false} ExecRecords(e: Env, signers: set<Key>, w: World, ops: seq<Op>)
    requires Exec(e, signers, w, ops).Ok?
    ensures var v := Exec(e, signers, w, ops).value;
            && v.records == RecordsAfter(w.records, ops)
            && v.drained == w.drained + Wiped(ops)
            && v.now == w.now
            && v.log == w.log + Moves(ops)
    decreases |ops|
  {
    if ops != [] {
      ApplyRecords(e, signers, w, ops[0]);
      ExecRecords(e, signers, Apply(e, signers, w, ops[0]).value, ops[1..]);
    }
  }

  // ---- balances and the log ----

  function Balance(w: World, k: Key): nat {
    if k in w.tokens then w.tokens[k].amount else 0
  }

  /** How much a list of transfers takes out of an account. */
  function Outflow(moves: seq<Move>, src: Key): nat {
    if moves == [] then 0 else (if moves[0].src == src then moves[0].amount else 0) + Outflow(moves[1..], src)
  }

  /** How much a list of transfers brings into an account. */
  function Inflow(moves: seq<Move>, dst: Key): nat {
    if moves == [] then 0 else (if moves[0].dst == dst then moves[0].amount else 0) + Inflow(moves[1..], dst)
  }

  lemma {:induction false} FlowsSplit(a: seq<Move>, b: seq<Move>, k: Key)
    ensures Outflow(a + b, k) == Outflow(a, k) + Outflow(b, k)
    ensures Inflow(a + b, k) == Inflow(a, k) + Inflow(b, k)
  {
    if a == [] {
      assert a + b == b;
    } else {
      assert (a + b)[1..] == a[1..] + b;
      FlowsSplit(a[1..], b, k);
    }
  }

  lemma OneFlow(m: Move, k: Key)
    ensures Outflow([m], k) == if m.src == k then m.amount else 0
    ensures Inflow([m], k) == if m.dst == k then m.amount else 0
  {
    assert [m][1..] == [];
  }

  lemma ApplyBalances(e: Env, signers: set<Key>, w: World, op: Op, k: Key)
    requires Apply(e, signers, w, op).Ok?
    ensures var v := Apply(e, signers, w, op).value;
            Balance(v, k) + Outflow(MoveOf(op), k) == Balance(w, k) + Inflow(MoveOf(op), k)
  {
    if op.Transfer? {
      OneFlow(MoveOf(op)[0], k);
    }
  }

  /** Nothing leaves an undelegated account while its owner does not act. */
  lemma {:induction false} NothingLeaves(e: Env, signers: set<Key>, w: World, ops: seq<Op>, account: Key, owner: Key,
      mint: Key, amount: nat)
    requires Exec(e, signers, w, ops).Ok? && Spares(ops, owner) && Holds(w.tokens, account, owner, mint, amount)
    ensures Outflow(Moves(ops), account) == 0
    decreases |ops|
  {
    if ops != [] {
      ApplyKeepsHolding(e, signers, w, ops[0], account, owner, mint, amount);
      assert Spares(ops[1..], owner);
      NothingLeaves(e, signers, Apply(e, signers, w, ops[0]).value, ops[1..], account, owner, mint, amount);
      FlowsSplit(MoveOf(ops[0]), Moves(ops[1..]), account);
      if ops[0].Transfer? {
        OneFlow(MoveOf(ops[0])[0], account);
      }
    }
  }

  /** The log accounts for every balance: an accepted list changes an account by exactly what its transfers
      bring in less what they take out, also where accounts alias, open or close on the way. */
  lemma {:induction false} ExecBalances(e: Env, signers: set<Key>, w: World, ops: seq<Op>, k: Key)
    requires Exec(e, signers, w, ops).Ok?
    ensures var v := Exec(e, signers, w, ops).value;
            Balance(v, k) + Outflow(Moves(ops), k) == Balance(w, k) + Inflow(Moves(ops), k)
    decreases |ops|
  {
    hide Apply;
    if ops != [] {
      ApplyBalances(e, signers, w, ops[0], k);
      ExecBalances(e, signers, Apply(e, signers, w, ops[0]).value, ops[1..], k);
      FlowsSplit(MoveOf(ops[0]), Moves(ops[1..]), k);
    }
  }
}
