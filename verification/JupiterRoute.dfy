/** The parser of a Jupiter route instruction (route_amounts in src/runner_trading/live.py) and the
    layout it accepts, written as a printer. */
module JupiterRoute {
  import opened Wrappers

  type Byte = b: nat | b < 256

  /** The first eight bytes of SHA-256 of "global:route" and of "global:shared_accounts_route". */
  const ROUTE: seq<Byte> := [229, 23, 203, 151, 122, 227, 173, 42]
  const SHARED: seq<Byte> := [193, 32, 155, 51, 65, 214, 156, 129]

  const MAX_SWAPS := 32

  // Widths of the little-endian fields.
  const U64: nat := 8
  const U32: nat := 4
  const U16: nat := 2
  const U8: nat := 1

  /** The byte length of a swap variant's own fields, for the variants of the published layout. */
  function SwapFields(variant: Byte): Option<nat> {
    if variant > 38 then None
    else if variant in {8, 12, 15, 16, 17, 18, 21, 23, 24, 27, 28} then Some(1)
    else if variant == 29 then Some(16)
    else if variant == 33 then Some(4)
    else Some(0)
  }

  /** The same table, one width for each of the 39 variants in turn. */
  const WIDTHS: seq<nat> := [0, 0, 0, 0, 0, 0, 0, 0, 1, 0, 0, 0, 1, 0, 0, 1, 1, 1, 1, 0,
                             0, 1, 0, 1, 1, 0, 0, 1, 1, 16, 0, 0, 0, 4, 0, 0, 0, 0, 0]

  lemma TableAgrees(variant: Byte)
    ensures SwapFields(variant) == if variant < |WIDTHS| then Some(WIDTHS[variant]) else None
  {
  }

  datatype Swap = Swap(variant: Byte, fields: seq<Byte>, plan: seq<Byte>) {
    predicate Ok() { SwapFields(variant) == Some(|fields|) && |plan| == 3 }
  }
  datatype Amounts = Amounts(input: nat, output: nat, slippage: nat, fee: nat)
  {
    predicate Ok() { input < Pow256(U64) && output < Pow256(U64) && slippage < Pow256(U16) && fee < Pow256(U8) }
  }
  /** shared holds the identifier byte of the shared-accounts layout, which the parser skips. */
  datatype Route = Route(shared: Option<Byte>, swaps: seq<Swap>, amounts: Amounts)
  {
    ghost predicate Ok() {
      1 <= |swaps| <= MAX_SWAPS && (forall i :: 0 <= i < |swaps| ==> swaps[i].Ok()) && amounts.Ok()
    }
  }

  // ------------------------------------------------------ little-endian words

  function Pow256(k: nat): nat { if k == 0 then 1 else 256 * Pow256(k - 1) }

  function Word(n: nat, k: nat): (s: seq<Byte>)
    ensures |s| == k
  {
    if k == 0 then [] else [n % 256] + Word(n / 256, k - 1)
  }

  function Number(s: seq<Byte>): nat {
    if s == [] then 0 else s[0] + 256 * Number(s[1..])
  }

  lemma {:induction false} NumberOfWord(n: nat, k: nat)
    requires n < Pow256(k)
    ensures Number(Word(n, k)) == n
    decreases k
  {
    if k > 0 {
      NumberOfWord(n / 256, k - 1);
      assert Word(n, k)[1..] == Word(n / 256, k - 1);
    }
  }

  lemma LowByte(b: Byte, n: nat)
    ensures (b + 256 * n) % 256 == b && (b + 256 * n) / 256 == n
  {
  }

  lemma {:induction false} WordOfNumber(s: seq<Byte>)
    ensures Word(Number(s), |s|) == s && Number(s) < Pow256(|s|)
    decreases |s|
  {
    if s != [] {
      WordOfNumber(s[1..]);
      LowByte(s[0], Number(s[1..]));
      assert s == [s[0]] + s[1..];
    }
  }

  // ------------------------------------------------------------ the printer

  function PrintSwap(w: Swap): seq<Byte> { [w.variant] + w.fields + w.plan }

  function PrintSwaps(swaps: seq<Swap>): seq<Byte> {
    if swaps == [] then [] else PrintSwap(swaps[0]) + PrintSwaps(swaps[1..])
  }

  function PrintAmounts(a: Amounts): (s: seq<Byte>)
    ensures |s| == 19
  {
    Word(a.input, U64) + Word(a.output, U64) + Word(a.slippage, U16) + Word(a.fee, U8)
  }

  function Header(r: Route): seq<Byte> {
    if r.shared.Some? then SHARED + [r.shared.value] else ROUTE
  }

  function Print(r: Route): seq<Byte> {
    Header(r) + Word(|r.swaps|, U32) + PrintSwaps(r.swaps) + PrintAmounts(r.amounts)
  }

  // ------------------------------------------------------------- the parser

  function ReadAmounts(s: seq<Byte>): Amounts
    requires |s| == 19
  {
    Amounts(Number(s[..8]), Number(s[8..16]), Number(s[16..18]), Number(s[18..]))
  }

  /** count swaps from the front of s, and what follows them. */
  function ReadSwaps(s: seq<Byte>, count: nat): Option<(seq<Swap>, seq<Byte>)>
    decreases count
  {
    if count == 0 then Some(([], s))
    else if s == [] || SwapFields(s[0]) == None || |s| < SwapFields(s[0]).value + 4 then None
    else
      var n := SwapFields(s[0]).value;
      match ReadSwaps(s[n + 4..], count - 1)
      case None => None
      case Some((swaps, rest)) => Some(([SwapAt(s, 0, n)] + swaps, rest))
  }

  function HeaderLength(s: seq<Byte>): Option<nat> {
    if SHARED <= s then Some(9) else if ROUTE <= s then Some(8) else None
  }

  function Parse(s: seq<Byte>): Option<Route> {
    if HeaderLength(s) == None || |s| < HeaderLength(s).value + 4 then None
    else
      var h := HeaderLength(s).value;
      var count := Number(s[h..h + 4]);
      if !(1 <= count <= MAX_SWAPS) then None
      else match ReadSwaps(s[h + 4..], count)
        case None => None
        case Some((swaps, rest)) =>
          if |rest| != 19 then None
          else Some(Route(if h == 9 then Some(s[8]) else None, swaps, ReadAmounts(rest)))
  }

  function SwapAt(s: seq<Byte>, offset: nat, n: nat): Swap
    requires offset + n + 4 <= |s|
  {
    Swap(s[offset], s[offset + 1..offset + n + 1], s[offset + n + 1..offset + n + 4])
  }

  lemma FrontSwap(w: Swap, tail: seq<Byte>)
    requires |w.plan| == 3
    ensures var s := PrintSwap(w) + tail;
            s[0] == w.variant && SwapAt(s, 0, |w.fields|) == w && s[|w.fields| + 4..] == tail
  {
  }

  /** The first of some swaps is read first. */
  lemma ReadFront(w: Swap, tail: seq<Byte>, more: nat)
    requires w.Ok() && ReadSwaps(tail, more).Some?
    ensures var (swaps, rest) := ReadSwaps(tail, more).value;
            ReadSwaps(PrintSwap(w) + tail, more + 1) == Some(([w] + swaps, rest))
  {
    FrontSwap(w, tail);
  }

  lemma {:induction false} ReadPrintedSwaps(swaps: seq<Swap>, rest: seq<Byte>)
    requires forall i :: 0 <= i < |swaps| ==> swaps[i].Ok()
    ensures ReadSwaps(PrintSwaps(swaps) + rest, |swaps|) == Some((swaps, rest))
    decreases |swaps|
  {
    if swaps != [] {
      assert swaps[0].Ok();
      ReadPrintedSwaps(swaps[1..], rest);
      Associate(PrintSwap(swaps[0]), PrintSwaps(swaps[1..]), rest);
      ReadFront(swaps[0], PrintSwaps(swaps[1..]) + rest, |swaps| - 1);
      assert swaps == [swaps[0]] + swaps[1..];
    } else {
      assert PrintSwaps(swaps) + rest == rest;
    }
  }

  lemma PrintSwapAt(s: seq<Byte>, n: nat)
    requires n + 4 <= |s|
    ensures PrintSwap(SwapAt(s, 0, n)) + s[n + 4..] == s
  {
    assert s == s[..1] + s[1..n + 1] + s[n + 1..n + 4] + s[n + 4..];
    assert s[..1] == [s[0]];
  }

  lemma {:induction false} PrintReadSwaps(s: seq<Byte>, count: nat)
    requires ReadSwaps(s, count).Some?
    ensures var (swaps, rest) := ReadSwaps(s, count).value;
            |swaps| == count && s == PrintSwaps(swaps) + rest && forall i :: 0 <= i < |swaps| ==> swaps[i].Ok()
    decreases count
  {
    if count > 0 {
      var n := SwapFields(s[0]).value;
      PrintReadSwaps(s[n + 4..], count - 1);
      var (swaps, rest) := ReadSwaps(s, count).value;
      var (others, _) := ReadSwaps(s[n + 4..], count - 1).value;
      var w := SwapAt(s, 0, n);
      assert w.Ok();
      PrintSwapAt(s, n);
      assert swaps == [w] + others && swaps[1..] == others;
      Associate(PrintSwap(w), PrintSwaps(others), rest);
    }
  }

  lemma Associate(a: seq<Byte>, b: seq<Byte>, c: seq<Byte>)
    ensures a + b + c == a + (b + c)
  {
  }

  lemma ReadPrintedAmounts(a: Amounts)
    requires a.Ok()
    ensures ReadAmounts(PrintAmounts(a)) == a
  {
    var s := PrintAmounts(a);
    assert s[..8] == Word(a.input, U64) && s[8..16] == Word(a.output, U64);
    assert s[16..18] == Word(a.slippage, U16) && s[18..] == Word(a.fee, U8);
    NumberOfWord(a.input, U64);
    NumberOfWord(a.output, U64);
    NumberOfWord(a.slippage, U16);
    NumberOfWord(a.fee, U8);
  }

  /** A field of k bytes, read and written again. */
  lemma FieldRoundTrip(field: seq<Byte>, k: nat)
    requires |field| == k
    ensures Number(field) < Pow256(k) && Word(Number(field), k) == field
  {
    WordOfNumber(field);
  }

  lemma Quarters(s: seq<Byte>)
    requires |s| == 19
    ensures s[..8] + s[8..16] + s[16..18] + s[18..] == s
  {
  }

  lemma PrintReadAmounts(s: seq<Byte>)
    requires |s| == 19
    ensures ReadAmounts(s).Ok() && PrintAmounts(ReadAmounts(s)) == s
  {
    FieldRoundTrip(s[..8], U64);
    FieldRoundTrip(s[8..16], U64);
    FieldRoundTrip(s[16..18], U16);
    FieldRoundTrip(s[18..], U8);
    Quarters(s);
  }

  /** The four parts of an instruction are found again where the header says. */
  lemma Parts(head: seq<Byte>, count: seq<Byte>, swaps: seq<Byte>, tail: seq<Byte>)
    requires |count| == 4
    ensures var s := head + count + swaps + tail;
            s[..|head|] == head && s[|head|..|head| + 4] == count && s[|head| + 4..] == swaps + tail
  {
  }

  lemma HeaderFound(r: Route, s: seq<Byte>)
    requires |s| >= |Header(r)| && s[..|Header(r)|] == Header(r)
    ensures HeaderLength(s) == Some(|Header(r)|) && (r.shared.Some? ==> s[8] == r.shared.value)
  {
    assert s[0] == Header(r)[0];
    assert r.shared.Some? ==> s[..9][..8] == SHARED && s[..9][8] == r.shared.value;
  }

  /** Parsing what was printed gives the route back. */
  lemma ParsePrinted(r: Route)
    requires r.Ok()
    ensures Parse(Print(r)) == Some(r)
  {
    Parts(Header(r), Word(|r.swaps|, U32), PrintSwaps(r.swaps), PrintAmounts(r.amounts));
    HeaderFound(r, Print(r));
    assert Pow256(U32) == 0x1_0000_0000;
    NumberOfWord(|r.swaps|, U32);
    ReadPrintedSwaps(r.swaps, PrintAmounts(r.amounts));
    ReadPrintedAmounts(r.amounts);
  }

  /** Only printed routes parse, and printing the result gives the bytes back. */
  lemma PrintParsed(s: seq<Byte>)
    requires Parse(s).Some?
    ensures Parse(s).value.Ok() && Print(Parse(s).value) == s
  {
    var h := HeaderLength(s).value;
    var count := Number(s[h..h + 4]);
    var (swaps, rest) := ReadSwaps(s[h + 4..], count).value;
    PrintReadSwaps(s[h + 4..], count);
    PrintReadAmounts(rest);
    WordOfNumber(s[h..h + 4]);
    var r := Parse(s).value;
    HeaderOf(s);
    Joined(s, h, Header(r), Word(|r.swaps|, U32), PrintSwaps(r.swaps), PrintAmounts(r.amounts));
  }

  lemma HeaderOf(s: seq<Byte>)
    requires Parse(s).Some?
    ensures Header(Parse(s).value) == s[..HeaderLength(s).value]
  {
    if SHARED <= s { assert s[..9] == s[..8] + [s[8]]; }
  }

  lemma Joined(s: seq<Byte>, h: nat, head: seq<Byte>, count: seq<Byte>, swaps: seq<Byte>, tail: seq<Byte>)
    requires h + 4 <= |s| && s[..h] == head && s[h..h + 4] == count && s[h + 4..] == swaps + tail
    ensures head + count + swaps + tail == s
  {
    assert s == s[..h] + s[h..h + 4] + s[h + 4..];
  }

  /** The accepted byte strings are exactly the printed routes, each printed from one route only. */
  lemma ParseExactly(s: seq<Byte>, a: Amounts)
    ensures (Parse(s).Some? && Parse(s).value.amounts == a) <==>
            exists r: Route :: r.Ok() && Print(r) == s && r.amounts == a
  {
    if Parse(s).Some? { PrintParsed(s); }
    if r: Route :| r.Ok() && Print(r) == s && r.amounts == a { ParsePrinted(r); }
  }

  // --------------------------------------------------------------- the loop

  /** What is left after count swaps, without the swaps themselves. */
  function Rest(s: seq<Byte>, count: nat): Option<seq<Byte>>
    decreases count
  {
    if count == 0 then Some(s)
    else if s == [] || SwapFields(s[0]) == None || |s| < SwapFields(s[0]).value + 4 then None
    else Rest(s[SwapFields(s[0]).value + 4..], count - 1)
  }

  lemma {:induction false} RestOfSwaps(s: seq<Byte>, count: nat)
    ensures Rest(s, count) == match ReadSwaps(s, count) case None => None case Some((_, rest)) => Some(rest)
    decreases count
  {
    if count > 0 && s != [] && SwapFields(s[0]).Some? && |s| >= SwapFields(s[0]).value + 4 {
      RestOfSwaps(s[SwapFields(s[0]).value + 4..], count - 1);
    }
  }

  /** The offset walk over the swaps: it may step past the end, where every later check fails. */
  method SkipSwaps(data: seq<Byte>, start: nat, count: nat) returns (end: Option<nat>)
    requires start <= |data|
    ensures Rest(data[start..], count).Some? <==> end.Some? && end.value <= |data|
    ensures Rest(data[start..], count).Some? ==> Rest(data[start..], count).value == data[end.value..]
  {
    var offset: nat := start;
    for i := 0 to count
      invariant offset <= |data| ==> Rest(data[start..], count) == Rest(data[offset..], count - i)
      invariant offset > |data| ==> Rest(data[start..], count) == None
    {
      if offset >= |data| || SwapFields(data[offset]) == None { return None; }
      var n := SwapFields(data[offset]).value;
      assert offset + n + 4 <= |data| ==> data[offset..][n + 4..] == data[offset + n + 4..];
      offset := offset + 1 + n + 3;
    }
    return Some(offset);
  }

  method RouteAmounts(data: seq<Byte>) returns (r: Option<Amounts>)
    ensures r == if Parse(data).Some? then Some(Parse(data).value.amounts) else None
  {
    if !(ROUTE <= data) && !(SHARED <= data) { return None; }
    var offset := if SHARED <= data then 9 else 8;
    if |data| < offset + 4 { return None; }
    var count := Number(data[offset..offset + 4]);
    if !(1 <= count <= MAX_SWAPS) { return None; }
    RestOfSwaps(data[offset + 4..], count);
    var end := SkipSwaps(data, offset + 4, count);
    if end == None || |data| != end.value + 19 { return None; }
    return Some(ReadAmounts(data[end.value..]));
  }
}
