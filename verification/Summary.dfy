/** The statistics page: one line per pair of chains, folded row by row out of the table. */
module Summary {
  import opened Types
  import opened Decimal
  import opened Dal
  import opened Ledger
  import opened Protocol
  import opened Preserve
  import opened Safety

  // ----- sums over rows -----

  function Sum(rows: seq<Row>, f: Row -> int): int {
    if rows == [] then 0 else Sum(rows[..|rows| - 1], f) + f(rows[|rows| - 1])
  }

  lemma SumPush(rows: seq<Row>, x: Row, f: Row -> int)
    ensures Sum(rows + [x], f) == Sum(rows, f) + f(x)
  {
    assert (rows + [x])[..|rows|] == rows;
  }

  lemma {:induction false} SumConcat(a: seq<Row>, b: seq<Row>, f: Row -> int)
    ensures Sum(a + b, f) == Sum(a, f) + Sum(b, f)
    decreases |b|
  {
    if b == [] {
      assert a + b == a;
    } else {
      var last := |b| - 1;
      assert a + b == (a + b[..last]) + [b[last]];
      SumPush(a + b[..last], b[last], f);
      SumConcat(a, b[..last], f);
    }
  }

  function Without(rows: seq<Row>, k: nat): seq<Row>
    requires k < |rows|
  {
    rows[..k] + rows[k + 1..]
  }

  lemma SumWithout(rows: seq<Row>, k: nat, f: Row -> int)
    requires k < |rows|
    ensures Sum(rows, f) == f(rows[k]) + Sum(Without(rows, k), f)
  {
    hide Sum;
    var front, back := rows[..k], rows[k + 1..];
    assert rows == (front + [rows[k]]) + back;
    SumConcat(front + [rows[k]], back, f);
    SumPush(front, rows[k], f);
    SumConcat(front, back, f);
  }

  lemma RowsWithout(rows: seq<Row>, k: nat)
    requires k < |rows|
    ensures multiset(Without(rows, k)) == multiset(rows) - multiset{rows[k]}
  {
    assert rows == (rows[..k] + [rows[k]]) + rows[k + 1..];
  }

  /** The order of the rows does not matter. */
  lemma {:induction false} SumPermutes(a: seq<Row>, b: seq<Row>, f: Row -> int)
    requires multiset(a) == multiset(b)
    ensures Sum(a, f) == Sum(b, f)
    decreases |a|
  {
    if a == [] {
      assert |multiset(b)| == 0;
    } else {
      assert a[0] in multiset(b);
      var k :| 0 <= k < |b| && b[k] == a[0];
      SumWithout(a, 0, f);
      SumWithout(b, k, f);
      RowsWithout(a, 0);
      RowsWithout(b, k);
      SumPermutes(Without(a, 0), Without(b, k), f);
    }
  }

  // ----- what a row adds to which line -----

  datatype Pair = Pair(src: ChainId, dst: ChainId)

  function PairOf(r: Row): Pair {
    if r.kind == TransferOut then Pair(r.chainId, r.relChain) else Pair(r.relChain, r.chainId)
  }

  /** An IN row still being sent, or with a settling transaction under way, is not looked at. */
  predicate Counted(r: Row) {
    r.kind == TransferOut || r.status == Locked || r.status == Refunded || r.status == Confirmed
  }

  predicate Success(r: Row) {
    r.kind == TransferIn && r.status == Confirmed
  }

  /** Gas the relay spent on an IN row: for sending it, and for refunding or confirming it. */
  function GasOf(r: Row): int {
    if r.kind == TransferOut || !Counted(r) then 0
    else
      r.transferGas + (if r.status == Refunded then r.refundGas else if r.status == Confirmed then r.confirmGas else 0)
  }

  function Outs(p: Pair): Row -> int {
    (r: Row) => if r.kind == TransferOut && PairOf(r) == p then 1 else 0
  }

  function Successes(p: Pair): Row -> int {
    (r: Row) => if Success(r) && PairOf(r) == p then 1 else 0
  }

  function Gas(p: Pair): Row -> int {
    (r: Row) => if PairOf(r) == p then GasOf(r) else 0
  }

  function Volume(p: Pair, token: Token): Row -> int {
    (r: Row) => if Success(r) && PairOf(r) == p && r.token == token then r.amount else 0
  }

  function Fees(p: Pair, token: Token): Row -> int {
    (r: Row) => if Success(r) && PairOf(r) == p && r.token == token then r.fee else 0
  }

  function Pairs(rows: seq<Row>): set<Pair> {
    set r | r in rows && Counted(r) :: PairOf(r)
  }

  function Tokens(rows: seq<Row>, p: Pair): set<Token> {
    set r | r in rows && Success(r) && PairOf(r) == p :: r.token
  }

  // ----- keys -----

  function Key(p: Pair): string {
    PrintNat(p.src) + "->" + PrintNat(p.dst)
  }

  /** The first dash ends the digits before it. */
  lemma DashEndsDigits(a: string, x: string, b: string, y: string)
    requires a + "->" + x == b + "->" + y && forall ch :: ch in b ==> IsDigit(ch)
    ensures |b| <= |a|
  {
    var s := a + "->" + x;
    assert s == b + "->" + y && s[|a|] == '-';
    assert forall i :: 0 <= i < |b| ==> s[i] == b[i] && b[i] in b;
  }

  /** Different pairs of chains never share a line. */
  lemma KeyIsInjective(p: Pair, q: Pair)
    requires Key(p) == Key(q)
    ensures p == q
  {
    hide PrintNat;
    PrintedNat(p.src);
    PrintedNat(p.dst);
    PrintedNat(q.src);
    PrintedNat(q.dst);
    var a, b := PrintNat(p.src), PrintNat(q.src);
    DashEndsDigits(a, PrintNat(p.dst), b, PrintNat(q.dst));
    DashEndsDigits(b, PrintNat(q.dst), a, PrintNat(p.dst));
    assert a == Key(p)[..|a|] && b == Key(q)[..|b|];
    assert PrintNat(p.dst) == Key(p)[|a| + 2..] && PrintNat(q.dst) == Key(q)[|b| + 2..];
  }

  // ----- the page -----

  datatype TokenFee = TokenFee(volume: int, fee: int)

  /** One line, as mathematics: filtered sums over all rows. */
  datatype Line = Line(src: ChainId, dst: ChainId, outs: int, successes: int, fees: map<Token, TokenFee>, gas: int)

  ghost function LineOf(rows: seq<Row>, p: Pair): Line {
    Line(p.src, p.dst, Sum(rows, Outs(p)), Sum(rows, Successes(p)), FeesOf(rows, p), Sum(rows, Gas(p)))
  }

  ghost function FeesOf(rows: seq<Row>, p: Pair): map<Token, TokenFee> {
    map t | t in Tokens(rows, p) :: FeeAt(rows, p, t)
  }

  function FeeAt(rows: seq<Row>, p: Pair, t: Token): TokenFee {
    TokenFee(Sum(rows, Volume(p, t)), Sum(rows, Fees(p, t)))
  }

  /** One line of the page, updated in place. */
  class Detail {
    const srcChainId: ChainId
    const dstChainId: ChainId
    var totalTransferOutNumber: nat
    var totalSuccessTransferInNumber: nat
    var feeReceived: map<Token, TokenFee>
    var gasCost: int

    constructor (src: ChainId, dst: ChainId)
      ensures Value() == Line(src, dst, 0, 0, map[], 0)
    {
      srcChainId, dstChainId := src, dst;
      totalTransferOutNumber, totalSuccessTransferInNumber := 0, 0;
      feeReceived, gasCost := map[], 0;
    }

    ghost function Value(): Line
      reads this
    {
      Line(srcChainId, dstChainId, totalTransferOutNumber, totalSuccessTransferInNumber, feeReceived, gasCost)
    }

    method CountOut()
      modifies this
      ensures Value() == old(Value()).(outs := old(Value()).outs + 1)
    {
      totalTransferOutNumber := totalTransferOutNumber + 1;
    }

    method CountIn(r: Row)
      requires r.kind == TransferIn && Counted(r)
      modifies this
      ensures Value() == AfterIn(old(Value()), r)
    {
      match r.status {
        case Locked =>
          gasCost := gasCost + r.transferGas;
        case Refunded =>
          gasCost := gasCost + r.transferGas;
          gasCost := gasCost + r.refundGas;
        case Confirmed =>
          gasCost := gasCost + r.transferGas;
          gasCost := gasCost + r.confirmGas;
          totalSuccessTransferInNumber := totalSuccessTransferInNumber + 1;
          if r.token !in feeReceived {
            feeReceived := feeReceived[r.token := TokenFee(0, 0)];
          }
          var f := feeReceived[r.token];
          feeReceived := feeReceived[r.token := TokenFee(f.volume + r.amount, f.fee + r.fee)];
      }
    }
  }

  function FeeIn(fees: map<Token, TokenFee>, t: Token): TokenFee {
    if t in fees then fees[t] else TokenFee(0, 0)
  }

  function AfterIn(l: Line, r: Row): Line {
    if r.status == Confirmed then
      var f := FeeIn(l.fees, r.token);
      l.(gas := l.gas + GasOf(r), successes := l.successes + 1,
         fees := l.fees[r.token := TokenFee(f.volume + r.amount, f.fee + r.fee)])
    else l.(gas := l.gas + GasOf(r))
  }

  /** What a counted row does to the line of its pair. */
  function AfterRow(l: Line, r: Row): Line {
    if r.kind == TransferOut then l.(outs := l.outs + 1) else AfterIn(l, r)
  }

  lemma FeeAtStep(rows: seq<Row>, x: Row, p: Pair, t: Token)
    ensures var was := FeeAt(rows, p, t);
            FeeAt(rows + [x], p, t) == if Success(x) && PairOf(x) == p && x.token == t
                                       then TokenFee(was.volume + x.amount, was.fee + x.fee) else was
    ensures t !in Tokens(rows, p) ==> FeeAt(rows, p, t) == TokenFee(0, 0)
  {
    SumPush(rows, x, Volume(p, t));
    SumPush(rows, x, Fees(p, t));
    if t !in Tokens(rows, p) {
      NoneOfToken(rows, p, t);
    }
  }

  lemma FeesStep(rows: seq<Row>, x: Row, p: Pair)
    ensures var was := FeesOf(rows, p);
            var f := FeeIn(was, x.token);
            FeesOf(rows + [x], p) == if Success(x) && PairOf(x) == p
                                     then was[x.token := TokenFee(f.volume + x.amount, f.fee + x.fee)] else was
  {
    hide FeeAt, Tokens;
    TokensStep(rows, x, p);
    forall t
      ensures Success(x) && PairOf(x) == p && x.token == t ==>
                FeeAt(rows + [x], p, t) == TokenFee(FeeAt(rows, p, t).volume + x.amount, FeeAt(rows, p, t).fee + x.fee)
      ensures !(Success(x) && PairOf(x) == p && x.token == t) ==> FeeAt(rows + [x], p, t) == FeeAt(rows, p, t)
      ensures t !in Tokens(rows, p) ==> FeeAt(rows, p, t) == TokenFee(0, 0)
    {
      FeeAtStep(rows, x, p, t);
    }
  }

  /** One more row changes the line of its own pair, if it is counted, and no other. */
  lemma LineStep(rows: seq<Row>, x: Row, p: Pair)
    ensures LineOf(rows + [x], p) ==
            if Counted(x) && PairOf(x) == p then AfterRow(LineOf(rows, p), x) else LineOf(rows, p)
  {
    hide FeesOf;
    SumPush(rows, x, Outs(p));
    SumPush(rows, x, Successes(p));
    SumPush(rows, x, Gas(p));
    FeesStep(rows, x, p);
  }

  lemma TokensStep(rows: seq<Row>, x: Row, p: Pair)
    ensures Tokens(rows + [x], p) == Tokens(rows, p) + if Success(x) && PairOf(x) == p then {x.token} else {}
  {
    assert x in rows + [x];
    forall t | t in Tokens(rows, p)
      ensures t in Tokens(rows + [x], p)
    {
      var r :| r in rows && Success(r) && PairOf(r) == p && r.token == t;
      assert r in rows + [x];
    }
  }

  lemma PairsStep(rows: seq<Row>, x: Row)
    ensures Pairs(rows + [x]) == Pairs(rows) + if Counted(x) then {PairOf(x)} else {}
  {
    assert x in rows + [x];
    forall p | p in Pairs(rows)
      ensures p in Pairs(rows + [x])
    {
      var r :| r in rows && Counted(r) && PairOf(r) == p;
      assert r in rows + [x];
    }
  }

  lemma {:induction false} NoneOfToken(rows: seq<Row>, p: Pair, t: Token)
    requires t !in Tokens(rows, p)
    ensures Sum(rows, Volume(p, t)) == 0 && Sum(rows, Fees(p, t)) == 0
  {
    if rows != [] {
      var last := |rows| - 1;
      assert rows == rows[..last] + [rows[last]];
      TokensStep(rows[..last], rows[last], p);
      NoneOfToken(rows[..last], p, t);
    }
  }

  lemma {:induction false} NoneOfPair(rows: seq<Row>, p: Pair)
    requires p !in Pairs(rows)
    ensures LineOf(rows, p) == Line(p.src, p.dst, 0, 0, map[], 0)
  {
    if rows != [] {
      var last := |rows| - 1;
      assert rows == rows[..last] + [rows[last]];
      PairsStep(rows[..last], rows[last]);
      NoneOfPair(rows[..last], p);
      LineStep(rows[..last], rows[last], p);
    } else {
      assert LineOf(rows, p).fees == map[];
    }
  }

  /** Any order of the rows gives the same lines. */
  lemma OrderIsIrrelevant(a: seq<Row>, b: seq<Row>, p: Pair)
    requires multiset(a) == multiset(b)
    ensures p in Pairs(a) <==> p in Pairs(b)
    ensures LineOf(a, p) == LineOf(b, p)
  {
    assert forall r :: r in a <==> r in multiset(a);
    assert forall r :: r in b <==> r in multiset(b);
    assert Tokens(a, p) == Tokens(b, p);
    SumPermutes(a, b, Outs(p));
    SumPermutes(a, b, Successes(p));
    SumPermutes(a, b, Gas(p));
    forall t
      ensures FeeAt(a, p, t) == FeeAt(b, p, t)
    {
      SumPermutes(a, b, Volume(p, t));
      SumPermutes(a, b, Fees(p, t));
    }
    assert FeesOf(a, p) == FeesOf(b, p);
  }

  /** There is exactly one line for every pair of chains with a counted row, and it holds that pair's sums. */
  ghost predicate Summarises(lines: map<string, Line>, rows: seq<Row>) {
    && (forall p :: p in Pairs(rows) ==> Key(p) in lines && lines[Key(p)] == LineOf(rows, p))
    && (forall k :: k in lines ==> exists p :: p in Pairs(rows) && k == Key(p))
  }

  lemma {:induction false} SumCongruent(rows: seq<Row>, f: Row -> int, g: Row -> int)
    requires forall r :: f(r) == g(r)
    ensures Sum(rows, f) == Sum(rows, g)
  {
    if rows != [] {
      SumCongruent(rows[..|rows| - 1], f, g);
    }
  }

  /** Every OUT row has a line from its own chain to the related one, every counted IN row one the other way round. */
  ghost predicate Faces(lines: map<string, Line>, rows: seq<Row>) {
    && (forall r :: r in rows && r.kind == TransferOut ==>
          exists k :: k in lines && lines[k].src == r.chainId && lines[k].dst == r.relChain)
    && (forall r :: r in rows && r.kind == TransferIn &&
                    (r.status == Locked || r.status == Refunded || r.status == Confirmed) ==>
          exists k :: k in lines && lines[k].src == r.relChain && lines[k].dst == r.chainId)
  }

  lemma LinesFace(lines: map<string, Line>, rows: seq<Row>)
    requires Summarises(lines, rows)
    ensures Faces(lines, rows)
  {
    hide Key;
    forall r | r in rows && Counted(r)
      ensures Key(PairOf(r)) in lines
      ensures lines[Key(PairOf(r))].src == PairOf(r).src && lines[Key(PairOf(r))].dst == PairOf(r).dst
    {
      assert PairOf(r) in Pairs(rows);
    }
  }

  /** A line in so many words: what is counted and added up for the chains it names. */
  ghost predicate Says(l: Line, rows: seq<Row>) {
    && l.outs == Sum(rows, (r: Row) =>
                       if r.kind == TransferOut && r.chainId == l.src && r.relChain == l.dst then 1 else 0)
    && l.successes == Sum(rows, (r: Row) =>
                            if r.kind == TransferIn && r.status == Confirmed &&
                               r.relChain == l.src && r.chainId == l.dst then 1 else 0)
    && l.gas == Sum(rows, (r: Row) =>
                      if r.kind == TransferIn && r.relChain == l.src && r.chainId == l.dst then
                        match r.status
                        case Locked => r.transferGas
                        case Refunded => r.transferGas + r.refundGas
                        case Confirmed => r.transferGas + r.confirmGas
                        case _ => 0
                      else 0)
    && (forall t :: t in l.fees <==> exists r :: r in rows && Earns(r, l.src, l.dst, t))
    && (forall t :: t in l.fees ==>
          && l.fees[t].volume == Sum(rows, (r: Row) => if Earns(r, l.src, l.dst, t) then r.amount else 0)
          && l.fees[t].fee == Sum(rows, (r: Row) => if Earns(r, l.src, l.dst, t) then r.fee else 0))
  }

  /** A confirmed IN transfer of token `t` from chain `src` to chain `dst`. */
  predicate Earns(r: Row, src: ChainId, dst: ChainId, t: Token) {
    r.kind == TransferIn && r.status == Confirmed && r.relChain == src && r.chainId == dst && r.token == t
  }

  lemma LineSays(rows: seq<Row>, p: Pair)
    ensures Says(LineOf(rows, p), rows)
  {
    hide Sum;
    SumCongruent(rows, Outs(p), (r: Row) =>
                   if r.kind == TransferOut && r.chainId == p.src && r.relChain == p.dst then 1 else 0);
    SumCongruent(rows, Successes(p), (r: Row) =>
                   if r.kind == TransferIn && r.status == Confirmed &&
                      r.relChain == p.src && r.chainId == p.dst then 1 else 0);
    SumCongruent(rows, Gas(p), (r: Row) =>
                   if r.kind == TransferIn && r.relChain == p.src && r.chainId == p.dst then
                     match r.status
                     case Locked => r.transferGas
                     case Refunded => r.transferGas + r.refundGas
                     case Confirmed => r.transferGas + r.confirmGas
                     case _ => 0
                   else 0);
    forall t
      ensures Sum(rows, Volume(p, t)) == Sum(rows, (r: Row) => if Earns(r, p.src, p.dst, t) then r.amount else 0)
      ensures Sum(rows, Fees(p, t)) == Sum(rows, (r: Row) => if Earns(r, p.src, p.dst, t) then r.fee else 0)
      ensures t in Tokens(rows, p) <==> exists r :: r in rows && Earns(r, p.src, p.dst, t)
    {
      SumCongruent(rows, Volume(p, t), (r: Row) => if Earns(r, p.src, p.dst, t) then r.amount else 0);
      SumCongruent(rows, Fees(p, t), (r: Row) => if Earns(r, p.src, p.dst, t) then r.fee else 0);
    }
  }

  /** Every line of the page says what it should, and names its chains the right way round. */
  lemma PageSays(lines: map<string, Line>, rows: seq<Row>)
    requires Summarises(lines, rows)
    ensures Faces(lines, rows)
    ensures forall k :: k in lines ==> Says(lines[k], rows)
  {
    hide LineOf, Key, Says, Faces;
    LinesFace(lines, rows);
    forall k | k in lines
      ensures Says(lines[k], rows)
    {
      var p :| p in Pairs(rows) && k == Key(p);
      LineSays(rows, p);
    }
  }

  /** The line of `p` before another row is added: its sums, or a new empty one. */
  lemma LineSoFar(lines: map<string, Line>, rows: seq<Row>, p: Pair)
    requires Summarises(lines, rows)
    ensures LineOf(rows, p) == if Key(p) in lines then lines[Key(p)] else Line(p.src, p.dst, 0, 0, map[], 0)
  {
    hide LineOf, Key;
    if Key(p) in lines {
      var q :| q in Pairs(rows) && Key(p) == Key(q);
      KeyIsInjective(p, q);
    } else {
      NoneOfPair(rows, p);
    }
  }

  lemma SummaryStep(lines: map<string, Line>, rows: seq<Row>, x: Row)
    requires Summarises(lines, rows)
    ensures Counted(x) ==> Summarises(lines[Key(PairOf(x)) := AfterRow(LineOf(rows, PairOf(x)), x)], rows + [x])
    ensures !Counted(x) ==> Summarises(lines, rows + [x])
  {
    hide LineOf, Key, AfterRow, Pairs;
    PairsStep(rows, x);
    forall p
      ensures LineOf(rows + [x], p) ==
              if Counted(x) && PairOf(x) == p then AfterRow(LineOf(rows, p), x) else LineOf(rows, p)
      ensures Key(p) == Key(PairOf(x)) ==> p == PairOf(x)
    {
      LineStep(rows, x, p);
      if Key(p) == Key(PairOf(x)) {
        KeyIsInjective(p, PairOf(x));
      }
    }
  }

  /** The page: its lines by key. */
  class Page {
    var lines: map<string, Detail>

    constructor ()
      ensures Apart() && Values() == map[] && lines == map[]
    {
      lines := map[];
    }

    ghost predicate Apart()
      reads this
    {
      forall k, l :: k in lines && l in lines && k != l ==> lines[k] != lines[l]
    }

    ghost function Values(): map<string, Line>
      reads this, lines.Values
    {
      map k | k in lines :: lines[k].Value()
    }

    /** The line filed under a pair, made first if it is not there. */
    method Find(p: Pair) returns (d: Detail)
      requires Apart()
      modifies this
      ensures Apart() && Key(p) in lines && lines[Key(p)] == d && (d in old(lines.Values) || fresh(d))
      ensures lines == old(lines)[Key(p) := d]
      ensures d.Value() == if Key(p) in old(Values()) then old(Values())[Key(p)] else Line(p.src, p.dst, 0, 0, map[], 0)
      ensures Values() == old(Values())[Key(p) := d.Value()]
    {
      hide Key;
      if Key(p) in lines {
        d := lines[Key(p)];
      } else {
        d := new Detail(p.src, p.dst);
        lines := lines[Key(p) := d];
      }
    }

    method RecordTransferOut(ghost rows: seq<Row>, r: Row)
      requires Apart() && Summarises(Values(), rows) && r.kind == TransferOut
      modifies this, lines.Values
      ensures Apart() && Summarises(Values(), rows + [r]) && fresh(lines.Values - old(lines.Values))
    {
      hide Key, LineOf, Summarises;
      var p := Pair(r.chainId, r.relChain);
      LineSoFar(Values(), rows, p);
      SummaryStep(Values(), rows, r);
      var d := Find(p);
      d.CountOut();
      assert Values() == old(Values())[Key(p) := AfterRow(LineOf(rows, p), r)];
    }

    method RecordTransferIn(ghost rows: seq<Row>, r: Row)
      requires Apart() && Summarises(Values(), rows) && r.kind == TransferIn
      modifies this, lines.Values
      ensures Apart() && Summarises(Values(), rows + [r]) && fresh(lines.Values - old(lines.Values))
    {
      hide Key, LineOf, Summarises, AfterIn;
      SummaryStep(Values(), rows, r);
      if r.status == Locked || r.status == Refunded || r.status == Confirmed {
        var p := Pair(r.relChain, r.chainId);
        assert Counted(r) && PairOf(r) == p && AfterRow(LineOf(rows, p), r) == AfterIn(LineOf(rows, p), r);
        hide Counted, PairOf, AfterRow;
        LineSoFar(Values(), rows, p);
        var d := Find(p);
        d.CountIn(r);
        assert Values() == old(Values())[Key(p) := AfterRow(LineOf(rows, p), r)];
      }
    }
  }

  /** The page built from the whole table shows, per pair of chains, that pair's filtered sums. */
  method GetTotalSummary(rows: seq<Row>) returns (page: Page)
    ensures fresh(page) && page.Apart() && Summarises(page.Values(), rows)
    ensures Faces(page.Values(), rows)
    ensures forall k :: k in page.lines ==> Says(page.lines[k].Value(), rows)
  {
    hide Summarises, Faces, Says;
    page := new Page();
    assert Summarises(map[], []) by {
      NoLines();
    }
    var i := 0;
    while i < |rows|
      invariant i <= |rows|
      invariant fresh(page) && fresh(page.lines.Values)
      invariant page.Apart() && Summarises(page.Values(), rows[..i])
    {
      assert rows[..i + 1] == rows[..i] + [rows[i]];
      if rows[i].kind == TransferOut {
        page.RecordTransferOut(rows[..i], rows[i]);
      } else {
        page.RecordTransferIn(rows[..i], rows[i]);
      }
      i := i + 1;
    }
    assert rows[..i] == rows;
    PageSays(page.Values(), rows);
    assert forall k :: k in page.lines ==> page.Values()[k] == page.lines[k].Value();
  }

  lemma NoLines()
    ensures Summarises(map[], [])
  {
  }

  // ----- the success rate -----

  /** The rows a 0-1 weight picks, by id. */
  ghost function Picked(rows: seq<Row>, f: Row -> int): set<Tid> {
    set x | x in rows && f(x) == 1 :: x.tid
  }

  lemma {:induction false} SumIsCount(rows: seq<Row>, f: Row -> int)
    requires DistinctTids(rows) && forall x :: f(x) == 0 || f(x) == 1
    ensures Sum(rows, f) == |Picked(rows, f)|
  {
    if rows != [] {
      var last := |rows| - 1;
      var x, front := rows[last], rows[..last];
      assert rows == front + [x];
      SumIsCount(front, f);
      assert x.tid !in Picked(front, f);
      assert Picked(rows, f) == Picked(front, f) + if f(x) == 1 then {x.tid} else {};
    }
  }

  lemma {:induction false} InjectionCounts(a: set<Tid>, b: set<Tid>, image: map<Tid, Tid>)
    requires a <= image.Keys
    requires forall t :: t in a ==> image[t] in b
    requires forall t, u :: t in a && u in a && image[t] == image[u] ==> t == u
    ensures |a| <= |b|
    decreases a
  {
    if a != {} {
      var t :| t in a;
      InjectionCounts(a - {t}, b - {image[t]}, image);
    }
  }

  /** In any snapshot of a reachable table no pair of chains shows more successes than transfers received. */
  lemma SuccessesAreBounded(c: Config, s: State, rows: seq<Row>, p: Pair)
    requires Reachable(c, s) && Lists(rows, s.table)
    ensures 0 <= LineOf(rows, p).successes <= LineOf(rows, p).outs
    ensures LineOf(rows, p).outs != 0 ==> LineOf(rows, p).successes * 100 / LineOf(rows, p).outs <= 100
  {
    hide Picked, Sum, FeesOf, Reachable, Lists;
    ListsDistinct(rows, s.table);
    SumIsCount(rows, Successes(p));
    SumIsCount(rows, Outs(p));
    SuccessesInject(c, s, rows, p);
    Percentage(LineOf(rows, p).successes, LineOf(rows, p).outs);
  }

  lemma Percentage(a: int, b: int)
    requires 0 <= a <= b
    ensures b != 0 ==> a * 100 / b <= 100
  {
  }

  lemma SuccessesInject(c: Config, s: State, rows: seq<Row>, p: Pair)
    requires Reachable(c, s) && Lists(rows, s.table)
    ensures |Picked(rows, Successes(p))| <= |Picked(rows, Outs(p))|
  {
    hide Picked, Reachable, Lists, Successes, Outs;
    var ins, outs := Picked(rows, Successes(p)), Picked(rows, Outs(p));
    var image := map t | t in s.table :: s.table[t].relTid;
    forall t | t in ins
      ensures t in s.table && s.table[t].kind == TransferIn && s.table[t].relTid in outs
    {
      PairedOut(c, s, rows, p, t);
    }
    forall t, u | t in ins && u in ins && image[t] == image[u]
      ensures t == u
    {
      ReferencesAreInjective(c, s, t, u);
    }
    InjectionCounts(ins, outs, image);
  }

  lemma ListsDistinct(rows: seq<Row>, tbl: Table)
    requires Lists(rows, tbl)
    ensures DistinctTids(rows)
  {
  }

  /** A successful IN row points at an OUT row counted on the same line. */
  lemma PairedOut(c: Config, s: State, rows: seq<Row>, p: Pair, t: Tid)
    requires Reachable(c, s) && Lists(rows, s.table) && t in Picked(rows, Successes(p))
    ensures t in s.table && s.table[t].kind == TransferIn && s.table[t].relTid in Picked(rows, Outs(p))
  {
    hide Reachable;
    var x :| x in rows && Successes(p)(x) == 1 && x.tid == t;
    ReferencesAreIntact(c, s, t);
    ReachableKeyed(c, s, x.relTid);
    var o := s.table[x.relTid];
    assert o in rows && Outs(p)(o) == 1 && o.tid == x.relTid;
  }

  lemma ReachableKeyed(c: Config, s: State, t: Tid)
    requires Reachable(c, s) && t in s.table
    ensures s.table[t].tid == t
  {
    ReachableInv(c, s);
    RowFacts(c, s, t);
  }
}
