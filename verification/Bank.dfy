/** The accounts as mutable state, and the calls every handler makes into the system and token programs. */
module Bank {
  import opened Prelude
  import opened Bytes
  import opened Ledger

  /** A list of effects was performed up to its end, or up to its first refusal. */
  ghost predicate Performed(e: Env, signers: set<Key>, w: World, ops: seq<Op>, r: Outcome, v: World) {
    match Exec(e, signers, w, ops)
    case Ok(u) => r == Pass && v == u
    case Err(error) => r == Fail(error)
  }

  /** What was performed so far, and then the rest. */
  lemma Then(e: Env, signers: set<Key>, w: World, a: seq<Op>, u: World, b: seq<Op>, r: Outcome, v: World)
    requires Performed(e, signers, w, a, Pass, u) && Performed(e, signers, u, b, r, v)
    ensures Performed(e, signers, w, a + b, r, v)
  {
    hide Exec;
    ExecAppend(e, signers, w, a, b);
  }

  /** One more stretch of a longer list: it ends there, or its refusal refuses the whole list. */
  lemma Progress(e: Env, signers: set<Key>, w: World, done: seq<Op>, u: World, ops: seq<Op>, r: Outcome, v: World,
      all: seq<Op>)
    requires Performed(e, signers, w, done, Pass, u) && Performed(e, signers, u, ops, r, v) && done + ops <= all
    ensures Performed(e, signers, w, done + ops, r, v)
    ensures r.Fail? ==> Performed(e, signers, w, all, r, v)
  {
    hide Exec, Performed;
    Then(e, signers, w, done, u, ops, r, v);
    if r.Fail? {
      assert all == (done + ops) + all[|done + ops|..];
      Halt(e, signers, w, done + ops, all[|done + ops|..], r, v);
    }
  }

  /** What was refused stays refused. */
  lemma Halt(e: Env, signers: set<Key>, w: World, a: seq<Op>, b: seq<Op>, r: Outcome, v: World)
    requires Performed(e, signers, w, a, r, v) && r.Fail?
    ensures Performed(e, signers, w, a + b, r, v)
  {
    hide Exec;
    ExecAppend(e, signers, w, a, b);
  }

  lemma Checked(e: Env, signers: set<Key>, w: World, ok: bool, error: Error)
    ensures Performed(e, signers, w, [Check(ok, error)], if ok then Pass else Fail(error), w)
  {
    OneOp(e, signers, w, Check(ok, error));
  }

  lemma NothingToDo(e: Env, signers: set<Key>, w: World)
    ensures Performed(e, signers, w, [], Pass, w)
  {
  }

  // ---- lists of conditions ----

  /** The first condition that fails decides. */
  function Verdict(checks: seq<Op>): Outcome
    requires forall op :: op in checks ==> op.Check?
  {
    if checks == [] then Pass else if checks[0].ok then Verdict(checks[1..]) else Fail(checks[0].error)
  }

  lemma VerdictCons(op: Op, rest: seq<Op>)
    requires op.Check? && forall q :: q in rest ==> q.Check?
    ensures Verdict([op] + rest) == if op.ok then Verdict(rest) else Fail(op.error)
  {
    assert ([op] + rest)[1..] == rest;
  }

  lemma {:induction false} VerdictPerformed(e: Env, signers: set<Key>, w: World, checks: seq<Op>)
    requires forall op :: op in checks ==> op.Check?
    ensures Performed(e, signers, w, checks, Verdict(checks), w)
    decreases |checks|
  {
    if checks != [] && checks[0].ok {
      VerdictPerformed(e, signers, w, checks[1..]);
    }
  }

  lemma FiveChecks(a: Op, b: Op, c: Op, d: Op, f: Op)
    requires a.Check? && b.Check? && c.Check? && d.Check? && f.Check?
    ensures Verdict([a, b, c, d, f]) ==
            if !a.ok then Fail(a.error) else if !b.ok then Fail(b.error) else if !c.ok then Fail(c.error)
            else if !d.ok then Fail(d.error) else if !f.ok then Fail(f.error) else Pass
  {
    assert [a, b, c, d, f] == [a] + ([b] + ([c] + ([d] + ([f] + []))));
    VerdictCons(f, []);
    VerdictCons(d, [f] + []);
    VerdictCons(c, [d] + ([f] + []));
    VerdictCons(b, [c] + ([d] + ([f] + [])));
    VerdictCons(a, [b] + ([c] + ([d] + ([f] + []))));
  }

  lemma SixChecks(a: Op, b: Op, c: Op, d: Op, f: Op, g: Op)
    requires a.Check? && b.Check? && c.Check? && d.Check? && f.Check? && g.Check?
    ensures Verdict([a, b, c, d, f, g]) ==
            if !a.ok then Fail(a.error) else if !b.ok then Fail(b.error) else if !c.ok then Fail(c.error)
            else if !d.ok then Fail(d.error) else if !f.ok then Fail(f.error) else if !g.ok then Fail(g.error) else Pass
  {
    assert [a, b, c, d, f, g] == [a] + [b, c, d, f, g];
    FiveChecks(b, c, d, f, g);
    VerdictCons(a, [b, c, d, f, g]);
  }

  /** The same accounts, with the same mints and owners: what the account checks read. */
  ghost predicate SameFaces(t: map<Key, Token>, u: map<Key, Token>) {
    && (forall k :: k in t <==> k in u)
    && forall k :: k in t && k in u ==> t[k].mint == u[k].mint && t[k].owner == u[k].owner
  }

  lemma TransferKeepsFaces(e: Env, signers: set<Key>, w: World, src: Key, mint: Key, dst: Key, auth: Authority,
      amount: nat, r: Outcome, v: World)
    requires Performed(e, signers, w, [Transfer(src, mint, dst, auth, amount)], r, v) && r.Pass?
    ensures SameFaces(w.tokens, v.tokens)
  {
    OneOp(e, signers, w, Transfer(src, mint, dst, auth, amount));
  }

  /** `dst[off..off + |src|].copy_from_slice(src)`. */
  method CopyInto(dst: array<byte>, off: nat, src: seq<byte>)
    requires off + |src| <= dst.Length
    modifies dst
    ensures dst[..] == Put(old(dst[..]), off, src)
  {
    var i := 0;
    while i < |src|
      invariant 0 <= i <= |src|
      invariant forall k :: 0 <= k < dst.Length && (k < off || off + i <= k) ==> dst[k] == old(dst[k])
      invariant forall k :: 0 <= k < i ==> dst[off + k] == src[k]
    {
      dst[off + i] := src[i];
      i := i + 1;
    }
    assert dst[..] == old(dst[..])[..off] + src + old(dst[..])[off + |src|..];
  }

  class Bank {
    const env: Env
    var tokens: map<Key, Token>
    var records: map<Key, seq<byte>>
    var drained: set<Key>
    var now: int
    var log: seq<Move>

    constructor (env: Env, tokens: map<Key, Token>, now: int)
      ensures this.env == env && View() == World(tokens, map[], {}, now, [])
    {
      this.env, this.tokens, this.records, this.drained, this.now, this.log := env, tokens, map[], {}, now, [];
    }

    function View(): World
      reads this
    {
      World(tokens, records, drained, now, log)
    }

    /** `create_pda` of a record the program owns. */
    method CreatePda(signers: set<Key>, key: Key, space: nat) returns (r: Outcome)
      modifies this`records
      ensures Performed(env, signers, old(View()), [NewRecord(key, space)], r, View())
      ensures r.Pass? ==> records == old(records)[key := Zeros(space)]
    {
      OneOp(env, signers, View(), NewRecord(key, space));
      if key in records || key in tokens {
        return Fail(AccountInUse);
      }
      records := records[key := Zeros(space)];
      return Pass;
    }

    /** `create_pda` of a token account and `token_init`. */
    method TokenInit(signers: set<Key>, key: Key, mint: Key, owner: Key) returns (r: Outcome)
      modifies this`tokens
      ensures Performed(env, signers, old(View()), [NewToken(key, mint, owner)], r, View())
    {
      OneOp(env, signers, View(), NewToken(key, mint, owner));
      if key in records || key in tokens {
        return Fail(AccountInUse);
      }
      if mint !in env.mints {
        return Fail(TokenRefused);
      }
      tokens := tokens[key := Token(mint, owner, None, 0, 0)];
      return Pass;
    }

    /** `token_transfer`. */
    method TokenTransfer(signers: set<Key>, src: Key, mint: Key, dst: Key, auth: Authority, amount: nat)
        returns (r: Outcome)
      modifies this`tokens, this`log
      ensures Performed(env, signers, old(View()), [Transfer(src, mint, dst, auth, amount)], r, View())
    {
      OneOp(env, signers, View(), Transfer(src, mint, dst, auth, amount));
      if !Signed(env, signers, auth) {
        return Fail(MissingRequiredSignature);
      }
      if src !in tokens || dst !in tokens {
        return Fail(TokenRefused);
      }
      var s, d := tokens[src], tokens[dst];
      if s.amount < amount || s.mint != mint || d.mint != mint {
        return Fail(TokenRefused);
      }
      var allowed := if s.delegate == Some(auth.key) then amount <= s.allowance else s.owner == auth.key;
      if !allowed {
        return Fail(TokenRefused);
      }
      if src != dst {
        if d.amount + amount >= U64 {
          return Fail(TokenRefused);
        }
        tokens := tokens[src := Spent(s, auth.key, amount)];
        tokens := tokens[dst := d.(amount := d.amount + amount)];
      }
      log := log + [Move(src, mint, dst, auth.key, amount)];
      return Pass;
    }

    /** `token_close`. */
    method TokenClose(signers: set<Key>, key: Key, auth: Authority) returns (r: Outcome)
      modifies this`tokens
      ensures Performed(env, signers, old(View()), [CloseToken(key, auth)], r, View())
    {
      OneOp(env, signers, View(), CloseToken(key, auth));
      if !Signed(env, signers, auth) {
        return Fail(MissingRequiredSignature);
      }
      if key !in tokens || tokens[key].owner != auth.key || tokens[key].amount != 0 {
        return Fail(TokenRefused);
      }
      tokens := tokens - {key};
      return Pass;
    }

    /** `token_approve`. */
    method TokenApprove(signers: set<Key>, src: Key, delegate: Key, auth: Authority, amount: nat) returns (r: Outcome)
      modifies this`tokens
      ensures Performed(env, signers, old(View()), [Approve(src, delegate, auth, amount)], r, View())
    {
      OneOp(env, signers, View(), Approve(src, delegate, auth, amount));
      if !Signed(env, signers, auth) {
        return Fail(MissingRequiredSignature);
      }
      if src !in tokens || tokens[src].owner != auth.key {
        return Fail(TokenRefused);
      }
      tokens := tokens[src := tokens[src].(delegate := Some(delegate), allowance := amount)];
      return Pass;
    }

    /** `token_revoke`. */
    method TokenRevoke(signers: set<Key>, src: Key, auth: Authority) returns (r: Outcome)
      modifies this`tokens
      ensures Performed(env, signers, old(View()), [Revoke(src, auth)], r, View())
    {
      OneOp(env, signers, View(), Revoke(src, auth));
      if !Signed(env, signers, auth) {
        return Fail(MissingRequiredSignature);
      }
      if src !in tokens || tokens[src].owner != auth.key {
        return Fail(TokenRefused);
      }
      tokens := tokens[src := tokens[src].(delegate := None, allowance := 0)];
      return Pass;
    }

    /** `try_borrow_mut_data`: a buffer holding the account's bytes. */
    method Borrow(key: Key) returns (buffer: array<byte>)
      requires key in records
      ensures fresh(buffer) && buffer[..] == records[key]
    {
      var b := records[key];
      buffer := new byte[|b|](i requires 0 <= i < |b| => b[i]);
    }

    /** The borrowed bytes go back; an account never changes size. */
    method Release(signers: set<Key>, key: Key, buffer: array<byte>) returns (r: Outcome)
      modifies this`records
      ensures Performed(env, signers, old(View()), [Write(key, buffer[..])], r, View())
    {
      OneOp(env, signers, View(), Write(key, buffer[..]));
      if key !in records || |records[key]| != buffer.Length {
        return Fail(InvalidAccountData);
      }
      records := records[key := buffer[..]];
      return Pass;
    }

    /** `close`: the record's lamports leave and its data is filled with zeros. */
    method Close(signers: set<Key>, key: Key) returns (r: Outcome)
      modifies this`records, this`drained
      ensures Performed(env, signers, old(View()), [Wipe(key)], r, View())
    {
      OneOp(env, signers, View(), Wipe(key));
      if key !in records {
        return Fail(InvalidAccountData);
      }
      records := records[key := Zeros(|records[key]|)];
      drained := drained + {key};
      return Pass;
    }
  }
}
