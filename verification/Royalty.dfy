/** Royalty terms from untrusted metadata bytes, and the dust-safe split. */
module Royalty {
  import opened Prelude
  import opened Bytes

  const MAX_CREATORS := 5
  const HEADER_LEN := 65
  const CREATOR_LEN := 34
  const MAX_BPS := 10_000

  // ---- the grammar and its printer ----

  datatype Creator = Creator(address: Key, verified: bool, share: byte)

  /** A Token-Metadata body up to its creator list. The header is key, update authority and mint. */
  datatype Metadata = Metadata(header: seq<byte>, name: seq<byte>, symbol: seq<byte>, uri: seq<byte>, bps: nat,
      creators: Option<seq<Creator>>)

  predicate Valid(m: Metadata) {
    && |m.header| == HEADER_LEN
    && |m.name| < 0x1_0000_0000 && |m.symbol| < 0x1_0000_0000 && |m.uri| < 0x1_0000_0000
    && m.bps <= MAX_BPS
    && (m.creators.Some? ==> |m.creators.value| <= MAX_CREATORS)
  }

  function PrintString(s: seq<byte>): seq<byte> {
    ToLE(|s|, 4) + s
  }

  function PrintCreator(c: Creator): (s: seq<byte>)
    ensures |s| == CREATOR_LEN
  {
    c.address + [if c.verified then 1 else 0, c.share]
  }

  function PrintCreators(cs: seq<Creator>): (s: seq<byte>)
    ensures |s| == CREATOR_LEN * |cs|
  {
    if cs == [] then [] else PrintCreator(cs[0]) + PrintCreators(cs[1..])
  }

  function PrintOption(o: Option<seq<Creator>>): seq<byte> {
    match o
    case None => [0]
    case Some(cs) => [1] + (ToLE(|cs|, 4) + PrintCreators(cs))
  }

  function Print(m: Metadata): seq<byte> {
    m.header + (PrintString(m.name) + (PrintString(m.symbol)
        + (PrintString(m.uri) + (ToLE(m.bps, 2) + PrintOption(m.creators)))))
  }

  // ---- the reference parser: each piece returns what it read and what is left ----

  function TakeString(s: seq<byte>): Option<(seq<byte>, seq<byte>)> {
    if |s| < 4 then None else
    var n := LE(s[..4]);
    if |s| < 4 + n then None else Some((s[4..4 + n], s[4 + n..]))
  }

  function TakeCreators(s: seq<byte>, n: nat): Option<(seq<Creator>, seq<byte>)> {
    if n == 0 then Some(([], s)) else
    if |s| < CREATOR_LEN || s[32] > 1 then None else
    var c := Creator(s[..32], s[32] == 1, s[33]);
    var more := TakeCreators(s[CREATOR_LEN..], n - 1);
    if more.None? then None else Some(([c] + more.value.0, more.value.1))
  }

  function TakeOption(s: seq<byte>): Option<(Option<seq<Creator>>, seq<byte>)> {
    if s == [] then None else
    if s[0] == 0 then Some((None, s[1..])) else
    if s[0] != 1 || |s| < 5 then None else
    var n := LE(s[1..5]);
    if n > MAX_CREATORS then None else
    var cs := TakeCreators(s[5..], n);
    if cs.None? then None else Some((Some(cs.value.0), cs.value.1))
  }

  function TakeRate(s: seq<byte>): Option<(nat, seq<byte>)> {
    if |s| < 2 || LE(s[..2]) > MAX_BPS then None else Some((LE(s[..2]), s[2..]))
  }

  function Parse(d: seq<byte>): Option<(Metadata, seq<byte>)> {
    if |d| < HEADER_LEN then None else
    var name := TakeString(d[HEADER_LEN..]);
    if name.None? then None else
    var symbol := TakeString(name.value.1);
    if symbol.None? then None else
    var uri := TakeString(symbol.value.1);
    if uri.None? then None else
    var bps := TakeRate(uri.value.1);
    if bps.None? then None else
    var creators := TakeOption(bps.value.1);
    if creators.None? then None else
    Some((Metadata(d[..HEADER_LEN], name.value.0, symbol.value.0, uri.value.0, bps.value.0, creators.value.0),
        creators.value.1))
  }

  // ---- parser and printer are inverse ----

  lemma Glue(s: seq<byte>, a: seq<byte>, t: seq<byte>, b: seq<byte>, rest: seq<byte>)
    requires s == a + t && t == b + rest
    ensures s == (a + b) + rest
  {
  }

  lemma Suffix(a: seq<byte>, b: seq<byte>, n: nat)
    requires n == |a|
    ensures (a + b)[..n] == a && (a + b)[n..] == b
  {
  }

  lemma StringInverse(x: seq<byte>, rest: seq<byte>)
    requires |x| < 0x1_0000_0000
    ensures TakeString(PrintString(x) + rest) == Some((x, rest))
  {
    Widths();
    ReadBack(|x|, 4);
    var s := PrintString(x) + rest;
    assert s[..4] == ToLE(|x|, 4);
    assert s[4..4 + |x|] == x && s[4 + |x|..] == rest;
  }

  lemma StringExact(s: seq<byte>)
    requires TakeString(s).Some?
    ensures |TakeString(s).value.0| < 0x1_0000_0000
    ensures s == PrintString(TakeString(s).value.0) + TakeString(s).value.1
  {
    Widths();
    WriteBack(s[..4]);
  }

  lemma {:induction false} CreatorsInverse(cs: seq<Creator>, rest: seq<byte>)
    ensures TakeCreators(PrintCreators(cs) + rest, |cs|) == Some((cs, rest))
  {
    if cs != [] {
      var s := PrintCreators(cs) + rest;
      CreatorsInverse(cs[1..], rest);
      assert s[CREATOR_LEN..] == PrintCreators(cs[1..]) + rest;
      assert s[..32] == cs[0].address;
      assert cs == [cs[0]] + cs[1..];
    } else {
      assert PrintCreators(cs) + rest == rest;
    }
  }

  lemma {:induction false} CreatorsExact(s: seq<byte>, n: nat)
    requires TakeCreators(s, n).Some?
    ensures |TakeCreators(s, n).value.0| == n
    ensures s == PrintCreators(TakeCreators(s, n).value.0) + TakeCreators(s, n).value.1
  {
    if n > 0 {
      CreatorsExact(s[CREATOR_LEN..], n - 1);
      var cs := TakeCreators(s, n).value.0;
      assert cs[1..] == TakeCreators(s[CREATOR_LEN..], n - 1).value.0;
      assert PrintCreator(cs[0]) == s[..CREATOR_LEN];
      assert s == s[..CREATOR_LEN] + s[CREATOR_LEN..];
    }
  }

  lemma CountField(count: seq<byte>, tail: seq<byte>)
    requires |count| == 4
    ensures ([1] + (count + tail))[1..5] == count && ([1] + (count + tail))[5..] == tail
  {
  }

  lemma OptionInverse(o: Option<seq<Creator>>, rest: seq<byte>)
    requires o.Some? ==> |o.value| <= MAX_CREATORS
    ensures TakeOption(PrintOption(o) + rest) == Some((o, rest))
  {
    var s := PrintOption(o) + rest;
    match o
    case None => assert s[1..] == rest;
    case Some(cs) =>
      Widths();
      ReadBack(|cs|, 4);
      var tail := PrintCreators(cs) + rest;
      assert s == [1] + (ToLE(|cs|, 4) + tail);
      CountField(ToLE(|cs|, 4), tail);
      CreatorsInverse(cs, rest);
  }

  lemma OptionExact(s: seq<byte>)
    requires TakeOption(s).Some?
    ensures var (o, rest) := TakeOption(s).value; (o.Some? ==> |o.value| <= MAX_CREATORS) && s == PrintOption(o) + rest
  {
    hide TakeCreators, PrintCreators, LE, ToLE;
    if s[0] == 1 {
      var n := LE(s[1..5]);
      WriteBack(s[1..5]);
      CreatorsExact(s[5..], n);
      assert s == [1] + s[1..5] + s[5..];
    }
  }

  lemma RateInverse(bps: nat, rest: seq<byte>)
    requires bps <= MAX_BPS
    ensures TakeRate(ToLE(bps, 2) + rest) == Some((bps, rest))
  {
    Widths();
    ReadBack(bps, 2);
    Suffix(ToLE(bps, 2), rest, 2);
  }

  lemma RateExact(s: seq<byte>)
    requires TakeRate(s).Some?
    ensures s == ToLE(TakeRate(s).value.0, 2) + TakeRate(s).value.1
  {
    WriteBack(s[..2]);
  }

  /** Printing then parsing gives back the metadata and leaves every trailing byte unread. */
  lemma ParseInvertsPrint(m: Metadata, rest: seq<byte>)
    requires Valid(m)
    ensures Parse(Print(m) + rest) == Some((m, rest))
  {
    var d := Print(m) + rest;
    var s5 := PrintOption(m.creators) + rest;
    var s4 := ToLE(m.bps, 2) + s5;
    var s3 := PrintString(m.uri) + s4;
    var s2 := PrintString(m.symbol) + s3;
    var s1 := PrintString(m.name) + s2;
    assert d == m.header + s1;
    Suffix(m.header, s1, HEADER_LEN);
    StringInverse(m.name, s2);
    StringInverse(m.symbol, s3);
    StringInverse(m.uri, s4);
    RateInverse(m.bps, s5);
    OptionInverse(m.creators, rest);
  }

  /** Whatever the parser accepts begins with the printed form of what it returns. */
  lemma ParseExact(d: seq<byte>)
    requires Parse(d).Some?
    ensures Valid(Parse(d).value.0)
    ensures d == Print(Parse(d).value.0) + Parse(d).value.1
  {
    var s1 := d[HEADER_LEN..];
    var s2 := TakeString(s1).value.1;
    var s3 := TakeString(s2).value.1;
    var s4 := TakeString(s3).value.1;
    var s5 := TakeRate(s4).value.1;
    StringExact(s1);
    StringExact(s2);
    StringExact(s3);
    RateExact(s4);
    OptionExact(s5);
    var (m, rest) := Parse(d).value;
    assert d == m.header + s1;
    var p5 := PrintOption(m.creators);
    var p4 := ToLE(m.bps, 2) + p5;
    var p3 := PrintString(m.uri) + p4;
    var p2 := PrintString(m.symbol) + p3;
    var p1 := PrintString(m.name) + p2;
    Glue(s4, ToLE(m.bps, 2), s5, p5, rest);
    Glue(s3, PrintString(m.uri), s4, p4, rest);
    Glue(s2, PrintString(m.symbol), s3, p3, rest);
    Glue(s1, PrintString(m.name), s2, p2, rest);
    Glue(d, m.header, s1, p1, rest);
  }

  /** Acceptance is exactly the grammar: some valid metadata, printed, is a prefix of the account data. */
  lemma AcceptsExactlyTheGrammar(d: seq<byte>)
    ensures Parse(d).Some? <==> exists m, rest :: Valid(m) && d == Print(m) + rest
    ensures forall m, rest :: Valid(m) && d == Print(m) + rest ==> Parse(d) == Some((m, rest))
  {
    if Parse(d).Some? {
      ParseExact(d);
    }
    forall m, rest | Valid(m) && d == Print(m) + rest
      ensures Parse(d) == Some((m, rest))
    {
      ParseInvertsPrint(m, rest);
    }
  }

  lemma MoreTrailing(d: seq<byte>, short: seq<byte>, m: Metadata, rest: seq<byte>, more: seq<byte>)
    requires Valid(m) && d == short + more && short == Print(m) + rest
    ensures Parse(d) == Some((m, rest + more)) && |Print(m)| <= |short|
  {
    ParseInvertsPrint(m, rest + more);
    Reassociate(Print(m), rest, more);
  }

  /** No prefix shorter than what was consumed is accepted. */
  lemma ShorterPrefixesFail(d: seq<byte>, n: nat)
    requires Parse(d).Some? && n < |Print(Parse(d).value.0)| <= |d|
    ensures Parse(d[..n]).None?
  {
    hide Parse, Print, Valid;
    var short := d[..n];
    if Parse(short).Some? {
      ParseExact(short);
      assert d == short + d[n..];
      MoreTrailing(d, short, Parse(short).value.0, Parse(short).value.1, d[n..]);
    }
  }

  // ---- the cursor parser of the program ----

  datatype Share = Share(creator: Key, percent: byte)

  datatype Terms = Terms(bps: nat, shares: seq<Share>)

  function SharesOf(cs: seq<Creator>): (r: seq<Share>)
    ensures |r| == |cs|
  {
    seq(|cs|, i requires 0 <= i < |cs| => Share(cs[i].address, cs[i].share))
  }

  /** What the settle path uses of the metadata: the rate and the creators with their shares. */
  function TermsOf(m: Metadata): Terms {
    Terms(m.bps, if m.creators.Some? then SharesOf(m.creators.value) else [])
  }

  function RoyaltyTerms(d: seq<byte>): Result<Terms> {
    if Parse(d).Some? then Ok(TermsOf(Parse(d).value.0)) else Err(InvalidAccountData)
  }

  /** How many more strings the walk reads from a suffix; None when one overruns. */
  function SkipStrings(s: seq<byte>, n: nat): Option<seq<byte>> {
    if n == 0 then Some(s) else
    var t := TakeString(s);
    if t.None? then None else SkipStrings(t.value.1, n - 1)
  }

  function TailTerms(s: seq<byte>): Result<Terms> {
    if TakeRate(s).None? then Err(InvalidAccountData) else
    var (bps, t) := TakeRate(s).value;
    if TakeOption(t).None? then Err(InvalidAccountData) else
    var cs := TakeOption(t).value.0;
    Ok(Terms(bps, if cs.Some? then SharesOf(cs.value) else []))
  }

  lemma ParseBySkipping(d: seq<byte>)
    requires |d| >= HEADER_LEN
    ensures var t := SkipStrings(d[HEADER_LEN..], 3);
            RoyaltyTerms(d) == if t.None? then Err(InvalidAccountData) else TailTerms(t.value)
  {
    var s := d[HEADER_LEN..];
    var t := TakeString(s);
    if t.Some? {
      var u := TakeString(t.value.1);
      assert SkipStrings(s, 3) == SkipStrings(t.value.1, 2);
      if u.Some? {
        assert SkipStrings(t.value.1, 2) == SkipStrings(u.value.1, 1);
        var v := TakeString(u.value.1);
        if v.Some? {
          assert SkipStrings(u.value.1, 1) == SkipStrings(v.value.1, 0);
        }
      }
    }
  }

  lemma {:induction false} CreatorsNeedRoom(s: seq<byte>, n: nat)
    requires |s| < CREATOR_LEN * n
    ensures TakeCreators(s, n).None?
  {
    if |s| >= CREATOR_LEN {
      CreatorsNeedRoom(s[CREATOR_LEN..], n - 1);
    }
  }

  /** The name, symbol and uri: lengths are followed, contents skipped. */
  method WalkStrings(d: seq<byte>) returns (end: Option<nat>)
    requires |d| >= HEADER_LEN
    ensures end.Some? <==> SkipStrings(d[HEADER_LEN..], 3).Some?
    ensures end.Some? ==> end.value <= |d| && SkipStrings(d[HEADER_LEN..], 3) == Some(d[end.value..])
  {
    var o := HEADER_LEN;
    for k := 0 to 3
      invariant HEADER_LEN <= o <= |d|
      invariant SkipStrings(d[HEADER_LEN..], 3) == SkipStrings(d[o..], 3 - k)
    {
      if o + 4 > |d| {
        return None;
      }
      var len := LE(d[o..o + 4]);
      assert d[o..][..4] == d[o..o + 4];
      if o + 4 + len > |d| {
        return None;
      }
      assert d[o..][4 + len..] == d[o + 4 + len..];
      o := o + 4 + len;
    }
    return Some(o);
  }

  /** The creator loop: fill the fixed slots in order, refusing a flag that is not a bool. */
  method ReadCreators(d: seq<byte>, start: nat, count: nat) returns (r: Option<seq<Share>>)
    requires start + CREATOR_LEN * count <= |d| && count <= MAX_CREATORS
    ensures var t := TakeCreators(d[start..], count);
            r == if t.Some? then Some(SharesOf(t.value.0)) else None
  {
    var slots := new Share[MAX_CREATORS](_ => Share(ZERO, 0));
    var o, n := start, 0;
    ghost var whole := TakeCreators(d[start..], count);
    while n < count
      invariant 0 <= n <= count && o == start + CREATOR_LEN * n
      invariant Continues(whole, slots[..n], TakeCreators(d[o..], count - n))
    {
      ghost var s := d[o..];
      ghost var before := slots[..n];
      if d[o + 32] > 1 {
        return None;
      }
      CreatorStep(whole, before, s, count - n);
      slots[n] := Share(d[o..o + 32], d[o + 33]);
      assert s[..32] == d[o..o + 32] && s[33] == d[o + 33];
      assert slots[..n + 1] == before + [Share(s[..32], s[33])];
      assert s[CREATOR_LEN..] == d[o + CREATOR_LEN..];
      o, n := o + CREATOR_LEN, n + 1;
    }
    assert SharesOf([]) == [] && slots[..n] + [] == slots[..n];
    return Some(slots[..n]);
  }

  /** The rate, the option flag and the creator list. */
  method ParseTail(d: seq<byte>, start: nat) returns (r: Result<Terms>)
    requires start <= |d|
    ensures r == TailTerms(d[start..])
  {
    var o := start;
    ghost var s := d[start..];
    if o + 2 > |d| {
      return Err(InvalidAccountData);
    }
    var bps := LE(d[o..o + 2]);
    assert s[..2] == d[o..o + 2];
    if bps > MAX_BPS {
      return Err(InvalidAccountData);
    }
    o := o + 2;
    ghost var t := d[o..];
    assert s[2..] == t;
    if o >= |d| {
      return Err(InvalidAccountData);
    }
    var opt := d[o];
    o := o + 1;
    if opt == 1 {
      if o + 4 > |d| {
        return Err(InvalidAccountData);
      }
      var count := LE(d[o..o + 4]);
      assert t[1..5] == d[o..o + 4];
      o := o + 4;
      assert t[5..] == d[o..];
      if count > MAX_CREATORS {
        return Err(InvalidAccountData);
      }
      if o + CREATOR_LEN * count > |d| {
        CreatorsNeedRoom(d[o..], count);
        return Err(InvalidAccountData);
      }
      var shares := ReadCreators(d, o, count);
      return if shares.Some? then Ok(Terms(bps, shares.value)) else Err(InvalidAccountData);
    } else if opt != 0 {
      return Err(InvalidAccountData);
    }
    return Ok(Terms(bps, []));
  }

  /** `parse_tm_royalty`: one cursor walks the bytes, every read behind a bounds check. */
  method ParseTmRoyalty(d: seq<byte>) returns (r: Result<Terms>)
    ensures r == RoyaltyTerms(d)
  {
    if |d| < HEADER_LEN {
      return Err(InvalidAccountData);
    }
    ParseBySkipping(d);
    var o := WalkStrings(d);
    if o.None? {
      return Err(InvalidAccountData);
    }
    r := ParseTail(d, o.value);
  }

  /** The slots filled so far and the creators still to read make up the whole list. */
  ghost predicate Continues(whole: Option<(seq<Creator>, seq<byte>)>, done: seq<Share>,
      left: Option<(seq<Creator>, seq<byte>)>) {
    && (whole.Some? <==> left.Some?)
    && (whole.Some? ==> SharesOf(whole.value.0) == done + SharesOf(left.value.0))
  }

  lemma CreatorStep(whole: Option<(seq<Creator>, seq<byte>)>, done: seq<Share>, s: seq<byte>, n: nat)
    requires n > 0 && |s| >= CREATOR_LEN && s[32] <= 1 && Continues(whole, done, TakeCreators(s, n))
    ensures Continues(whole, done + [Share(s[..32], s[33])], TakeCreators(s[CREATOR_LEN..], n - 1))
  {
    var t, u := TakeCreators(s, n), TakeCreators(s[CREATOR_LEN..], n - 1);
    if u.Some? {
      assert SharesOf(t.value.0) == [Share(s[..32], s[33])] + SharesOf(u.value.0);
    }
  }

  // ---- the split ----

  function Sum(s: seq<nat>): nat {
    if s == [] then 0 else s[0] + Sum(s[1..])
  }

  lemma {:induction false} SumSplit(s: seq<nat>, t: seq<nat>)
    ensures Sum(s + t) == Sum(s) + Sum(t)
  {
    if s == [] {
      assert s + t == t;
    } else {
      assert (s + t)[1..] == s[1..] + t;
      SumSplit(s[1..], t);
    }
  }

  function PercentSum(shares: seq<byte>): nat {
    if shares == [] then 0 else shares[0] + PercentSum(shares[1..])
  }

  lemma {:induction false} PercentSumSplit(s: seq<byte>, t: seq<byte>)
    ensures PercentSum(s + t) == PercentSum(s) + PercentSum(t)
  {
    if s == [] {
      assert s + t == t;
    } else {
      assert (s + t)[1..] == s[1..] + t;
      PercentSumSplit(s[1..], t);
    }
  }

  /** Each creator's share, rounded down. */
  function Floors(total: nat, shares: seq<byte>): (r: seq<nat>)
    ensures |r| == |shares|
    ensures forall i :: 0 <= i < |r| ==> r[i] == total * shares[i] / 100
  {
    seq(|shares|, i requires 0 <= i < |shares| => total * shares[i] / 100)
  }

  lemma Distribute(a: nat, b: nat, c: nat)
    ensures a * (b + c) == a * b + a * c
  {
  }

  lemma FloorOf(x: nat)
    ensures 100 * (x / 100) <= x <= 100 * (x / 100) + 99
  {
  }

  lemma {:induction false} FloorBounds(total: nat, shares: seq<byte>)
    ensures 100 * Sum(Floors(total, shares)) <= total * PercentSum(shares) <= 100 * Sum(Floors(total, shares))
        + 99 * |shares|
  {
    if shares != [] {
      var rest := shares[1..];
      FloorBounds(total, rest);
      assert Floors(total, shares)[1..] == Floors(total, rest);
      Distribute(total, shares[0], PercentSum(rest));
      FloorOf(total * shares[0]);
    }
  }

  lemma OnePercent(p: byte)
    ensures PercentSum([p]) == p
  {
    assert PercentSum([p]) == p + PercentSum([]);
  }

  lemma HeadArithmetic(total: nat, headPart: nat, lastPart: nat, paid: nat, n: nat)
    requires headPart + lastPart == total * 100 && 100 * paid <= headPart <= 100 * paid + 99 * n
    ensures 100 * paid + lastPart <= 100 * total <= 100 * paid + lastPart + 99 * n && paid <= total
  {
  }

  lemma HeadFits(total: nat, shares: seq<byte>)
    requires shares != [] && PercentSum(shares) == 100
    ensures var head, last := shares[..|shares| - 1], shares[|shares| - 1];
            var paid := Sum(Floors(total, head));
            && 100 * paid + total * last <= 100 * total <= 100 * paid + total * last + 99 * |head|
            && paid <= total
  {
    hide Sum, Floors, PercentSum;
    var head, last := shares[..|shares| - 1], shares[|shares| - 1];
    assert shares == head + [last];
    PercentSumSplit(head, [last]);
    OnePercent(last);
    FloorBounds(total, head);
    Distribute(total, PercentSum(head), last);
    HeadArithmetic(total, total * PercentSum(head), total * last, Sum(Floors(total, head)), |head|);
  }

  /** Every creator but the last is paid its floor; the last takes the remainder. */
  function Splits(total: nat, shares: seq<byte>): (r: seq<nat>)
    requires shares != [] ==> PercentSum(shares) == 100
    ensures |r| == |shares|
  {
    if shares == [] then [] else
    var head := shares[..|shares| - 1];
    HeadFits(total, shares);
    Floors(total, head) + [total - Sum(Floors(total, head))]
  }

  lemma OneSum(x: nat)
    ensures Sum([x]) == x
  {
    assert Sum([x]) == x + Sum([]);
  }

  lemma LastArithmetic(total: nat, lastPart: nat, paid: nat, n: nat)
    requires 100 * paid + lastPart <= 100 * total <= 100 * paid + lastPart + 99 * n && paid <= total
    ensures lastPart <= 100 * (total - paid) <= lastPart + 99 * n
  {
  }

  /** No dust is lost: the payouts sum to the total, every one but the last is a floor, and the last
      exceeds its exact share by less than one unit for each other creator. */
  lemma SplitsAreExact(total: nat, shares: seq<byte>)
    requires shares != [] && PercentSum(shares) == 100
    ensures Sum(Splits(total, shares)) == total
    ensures forall i :: 0 <= i < |shares| - 1 ==> Splits(total, shares)[i] == total * shares[i] / 100
    ensures var n := |shares|;
            total * shares[n - 1] <= 100 * Splits(total, shares)[n - 1] <= total * shares[n - 1] + 99 * (n - 1)
  {
    hide Sum, Floors, PercentSum;
    var head, n := shares[..|shares| - 1], |shares|;
    var floors := Floors(total, head);
    HeadFits(total, shares);
    SumSplit(floors, [total - Sum(floors)]);
    OneSum(total - Sum(floors));
    assert Splits(total, shares) == floors + [total - Sum(floors)];
    LastArithmetic(total, total * shares[n - 1], Sum(floors), n - 1);
  }

  /** `split_by_share`: fill the payout slots in order, keeping the running sum. */
  method SplitByShare(total: nat, shares: seq<byte>) returns (out: seq<nat>)
    requires total < U64 && |shares| <= MAX_CREATORS
    requires shares != [] ==> PercentSum(shares) == 100
    ensures |out| == MAX_CREATORS && out[..|shares|] == Splits(total, shares)
    ensures forall i :: |shares| <= i < MAX_CREATORS ==> out[i] == 0
  {
    var slots := new nat[MAX_CREATORS](_ => 0);
    var n := |shares|;
    if n == 0 {
      return slots[..];
    }
    var paid := 0;
    ghost var head := shares[..n - 1];
    for i := 0 to n - 1
      invariant slots[..i] == Floors(total, head)[..i]
      invariant paid == Sum(Floors(total, head)[..i])
      invariant forall k :: i <= k < MAX_CREATORS ==> slots[k] == 0
    {
      var amount := total * shares[i] / 100;
      slots[i] := amount;
      paid := paid + amount;
      SumSplit(Floors(total, head)[..i], [amount]);
      assert Floors(total, head)[..i + 1] == Floors(total, head)[..i] + [amount];
    }
    HeadFits(total, shares);
    assert Floors(total, head)[..n - 1] == Floors(total, head);
    slots[n - 1] := total - paid;
    assert slots[..n] == slots[..n - 1] + [total - paid];
    return slots[..];
  }

  // ---- fees ----

  /** `(amount * bps / 10_000) as u64`. */
  function Bps(amount: nat, bps: nat): nat {
    amount * bps / 10_000 % U64
  }

  lemma MulBound(a: nat, b: nat, c: nat)
    requires b <= c
    ensures a * b <= a * c
  {
    Distribute(a, b, c - b);
  }

  lemma CastFits(p: nat, amount: nat)
    requires p <= amount * 10_000 && amount < U64
    ensures p / 10_000 % U64 == p / 10_000 <= amount
  {
  }

  /** With a rate of at most 100% the cast never truncates and the fee never exceeds the amount. */
  lemma BpsFits(amount: nat, bps: nat)
    requires amount < U64 && bps <= MAX_BPS
    ensures Bps(amount, bps) == amount * bps / 10_000 <= amount
  {
    MulBound(amount, bps, 10_000);
    CastFits(amount * bps, amount);
  }

  /** The fees of several amounts, each rounded down. */
  function FeeSum(amounts: seq<nat>, bps: nat): nat {
    if amounts == [] then 0 else amounts[0] * bps / 10_000 + FeeSum(amounts[1..], bps)
  }

  lemma FloorOfSum(a: nat, b: nat)
    ensures a / 10_000 + b / 10_000 <= (a + b) / 10_000 <= a / 10_000 + b / 10_000 + 1
  {
  }

  /** Cutting one price into k legs never raises the fee, and lowers it by at most k - 1 units. */
  lemma {:induction false} CutsLowerTheFee(amounts: seq<nat>, bps: nat)
    requires amounts != []
    ensures FeeSum(amounts, bps) <= Sum(amounts) * bps / 10_000 <= FeeSum(amounts, bps) + |amounts| - 1
  {
    var rest := amounts[1..];
    if rest == [] {
      assert Sum(amounts) == amounts[0] + Sum(rest) == amounts[0];
      assert FeeSum(amounts, bps) == amounts[0] * bps / 10_000 + FeeSum(rest, bps);
    } else {
      CutsLowerTheFee(rest, bps);
      FloorOfSum(amounts[0] * bps, Sum(rest) * bps);
      assert Sum(amounts) * bps == amounts[0] * bps + Sum(rest) * bps;
    }
  }
}
