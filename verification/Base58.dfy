/** Base 58: the in-place carry loops of cloudflare-router/src/audits.js and its test helper, against the
    big-number decoder of src/ratitrust/keys.py. A character is its index in the alphabet, or an index
    of at least 58 when it is not in the alphabet; the character "1" is index 0. Digits are kept least
    significant first, as in the loops. */
module Base58 {
  import opened Wrappers

  // ------------------------------------------------------ numbers and digits

  ghost function Value(digits: seq<nat>, base: nat): nat {
    if digits == [] then 0 else digits[0] + Value(digits[1..], base) * base
  }

  ghost predicate InBase(digits: seq<nat>, base: nat) { forall i :: 0 <= i < |digits| ==> digits[i] < base }

  /** No leading zero. */
  predicate Canonical(digits: seq<nat>) { digits != [] ==> digits[|digits| - 1] != 0 }

  lemma DivFacts(n: nat, base: nat)
    requires base >= 2
    ensures n / base * base + n % base == n && n % base < base && (n > 0 ==> n / base < n)
  {
  }

  /** The digits of a number, as to_bytes gives them at the number's own length. */
  function Digits(n: nat, base: nat): (digits: seq<nat>)
    requires base >= 2
    ensures InBase(digits, base) && Canonical(digits) && Value(digits, base) == n
    ensures n > 0 ==> digits != []
  {
    if n == 0 then []
    else
      DivFacts(n, base);
      var rest := Digits(n / base, base);
      var digits := [n % base] + rest;
      assert digits[1..] == rest;
      digits
  }

  lemma DivUnique(d: nat, v: nat, base: nat)
    requires d < base
    ensures (d + v * base) % base == d && (d + v * base) / base == v
  {
    var n := d + v * base;
    var gap := n / base - v;
    assert gap * base == d - n % base;
    MulAtLeast(gap, base);
    MulAtLeast(-gap, base);
  }

  lemma MulAtLeast(q: int, base: nat)
    ensures q >= 1 ==> q * base >= base
  {
    if q >= 1 { assert q * base == (q - 1) * base + base; }
  }

  /** A number has one canonical digit string. */
  lemma {:induction false} CanonicalUnique(a: seq<nat>, b: seq<nat>, base: nat)
    requires base >= 2 && InBase(a, base) && InBase(b, base) && Canonical(a) && Canonical(b)
    requires Value(a, base) == Value(b, base)
    ensures a == b
    decreases |a|
  {
    if a == [] {
      PositiveValue(b, base);
    } else if b == [] {
      PositiveValue(a, base);
    } else {
      DivUnique(a[0], Value(a[1..], base), base);
      DivUnique(b[0], Value(b[1..], base), base);
      CanonicalUnique(a[1..], b[1..], base);
      assert a == [a[0]] + a[1..] && b == [b[0]] + b[1..];
    }
  }

  lemma {:induction false} PositiveValue(a: seq<nat>, base: nat)
    requires base >= 2 && Canonical(a)
    ensures a != [] ==> Value(a, base) > 0
    decreases |a|
  {
    if |a| > 1 {
      PositiveValue(a[1..], base);
      assert Value(a[1..], base) * base > 0;
    }
  }

  // ------------------------------------------------------------ the carry

  function Product(a: nat, b: nat): nat { a * b }

  /** What a division leaves to carry. */
  function Upper(n: nat, base: nat): (q: nat)
    requires base >= 2
    ensures n > 0 ==> q < n
  {
    DivFacts(n, base);
    n / base
  }

  function Lower(n: nat, base: nat): (r: nat)
    requires base >= 2
    ensures r < base
  {
    n % base
  }

  /** Multiply the digits in place and add a carry, as both inner loops do. */
  function MulAdd(digits: seq<nat>, factor: nat, carry: nat, base: nat): seq<nat>
    requires base >= 2
    decreases |digits|, carry
  {
    if digits == [] then
      if carry == 0 then [] else [Lower(carry, base)] + MulAdd([], factor, Upper(carry, base), base)
    else
      var c := carry + Product(digits[0], factor);
      [Lower(c, base)] + MulAdd(digits[1..], factor, Upper(c, base), base)
  }

  lemma MulAddHead(s: seq<nat>, i: nat, factor: nat, carry: nat, base: nat)
    requires base >= 2 && i < |s|
    ensures var c := carry + Product(s[i], factor);
            MulAdd(s[i..], factor, carry, base) == [Lower(c, base)] + MulAdd(s[i + 1..], factor, Upper(c, base), base)
  {
    assert s[i..][0] == s[i] && s[i..][1..] == s[i + 1..];
  }

  lemma CarryStep(c: nat, v: nat, factor: nat, d: nat, carry: nat, base: nat)
    requires base >= 2 && c == carry + d * factor
    ensures c % base + (v * factor + c / base) * base == (d + v * base) * factor + carry
  {
    DivFacts(c, base);
    assert (v * factor + c / base) * base == v * factor * base + c / base * base;
    assert (d + v * base) * factor == d * factor + v * base * factor;
    assert v * factor * base == v * base * factor;
  }

  lemma ValueCons(d: nat, rest: seq<nat>, base: nat)
    ensures Value([d] + rest, base) == d + Value(rest, base) * base
  {
    assert ([d] + rest)[1..] == rest;
  }

  lemma {:induction false} MulAddInBase(digits: seq<nat>, factor: nat, carry: nat, base: nat)
    requires base >= 2
    ensures InBase(MulAdd(digits, factor, carry, base), base)
    decreases |digits|, carry
  {
    if digits != [] {
      MulAddInBase(digits[1..], factor, Upper(carry + Product(digits[0], factor), base), base);
    } else if carry != 0 {
      MulAddInBase([], factor, Upper(carry, base), base);
    }
  }

  lemma {:induction false} MulAddValue(digits: seq<nat>, factor: nat, carry: nat, base: nat)
    requires base >= 2
    ensures Value(MulAdd(digits, factor, carry, base), base) == Product(Value(digits, base), factor) + carry
    decreases |digits|, carry
  {
    if digits != [] {
      var c := carry + Product(digits[0], factor);
      MulAddValue(digits[1..], factor, Upper(c, base), base);
      ValueCons(Lower(c, base), MulAdd(digits[1..], factor, Upper(c, base), base), base);
      CarryStep(c, Value(digits[1..], base), factor, digits[0], carry, base);
    } else if carry != 0 {
      MulAddValue([], factor, Upper(carry, base), base);
      ValueCons(Lower(carry, base), MulAdd([], factor, Upper(carry, base), base), base);
      DivFacts(carry, base);
    }
  }

  lemma {:induction false} CarryCanonical(factor: nat, carry: nat, base: nat)
    requires base >= 2
    ensures Canonical(MulAdd([], factor, carry, base))
    ensures carry != 0 ==> MulAdd([], factor, carry, base) != []
    decreases carry
  {
    if carry != 0 {
      DivFacts(carry, base);
      CarryCanonical(factor, carry / base, base);
      Prepend(carry, base, MulAdd([], factor, carry / base, base));
    }
  }

  lemma MulAddStep(digits: seq<nat>, factor: nat, carry: nat, base: nat) returns (c: nat, next: nat)
    requires base >= 2 && digits != [] && factor > 0
    ensures next == c / base && (digits[0] != 0 ==> c > 0)
    ensures MulAdd(digits, factor, carry, base) == [c % base] + MulAdd(digits[1..], factor, next, base)
  {
    c := carry + digits[0] * factor;
    next := c / base;
    MulAtLeast(digits[0], factor);
  }

  /** The carry never leaves a leading zero behind a nonzero digit. */
  lemma {:induction false} MulAddCanonical(digits: seq<nat>, factor: nat, carry: nat, base: nat)
    requires base >= 2 && factor > 0 && Canonical(digits)
    ensures Canonical(MulAdd(digits, factor, carry, base))
    ensures digits != [] || carry != 0 ==> MulAdd(digits, factor, carry, base) != []
    decreases |digits|
  {
    if digits == [] {
      CarryCanonical(factor, carry, base);
    } else {
      var c, next := MulAddStep(digits, factor, carry, base);
      MulAddCanonical(digits[1..], factor, next, base);
      Prepend(c, base, MulAdd(digits[1..], factor, next, base));
    }
  }

  lemma Prepend(c: nat, base: nat, tail: seq<nat>)
    requires base >= 2 && Canonical(tail) && (tail == [] ==> c / base == 0 && c != 0)
    ensures Canonical([c % base] + tail)
  {
    DivFacts(c, base);
  }

  /** The digits the loops keep: a single zero for zero, otherwise the canonical digits. */
  ghost function Padded(n: nat, base: nat): seq<nat>
    requires base >= 2
  {
    if n == 0 then [0] else Digits(n, base)
  }

  /** The carry's digits are the digits of the number it makes. */
  lemma MulAddDigits(digits: seq<nat>, factor: nat, carry: nat, base: nat)
    requires base >= 2 && factor > 0 && Canonical(digits)
    ensures MulAdd(digits, factor, carry, base) == Digits(Product(Value(digits, base), factor) + carry, base)
  {
    MulAddValue(digits, factor, carry, base);
    MulAddInBase(digits, factor, carry, base);
    MulAddCanonical(digits, factor, carry, base);
    var n := Product(Value(digits, base), factor) + carry;
    CanonicalUnique(MulAdd(digits, factor, carry, base), Digits(n, base), base);
  }

  /** One round of the carry loop takes the digits of n to the digits of n * factor + carry. */
  lemma Round(n: nat, factor: nat, carry: nat, base: nat)
    requires base >= 2 && factor > 0
    ensures MulAdd(Padded(n, base), factor, carry, base) == Padded(Product(n, factor) + carry, base)
  {
    if n == 0 {
      MulAddHead([0], 0, factor, carry, base);
      assert [0][0..] == [0] && [0][1..] == [];
      if carry != 0 {
        MulAddDigits([], factor, carry, base);
        assert MulAdd([], factor, carry, base) == [Lower(carry, base)] + MulAdd([], factor, Upper(carry, base), base);
      }
    } else {
      MulAtLeast(n, factor);
      MulAddDigits(Digits(n, base), factor, carry, base);
    }
  }

  // --------------------------------------------------- text and byte strings

  function Rev(s: seq<nat>): (r: seq<nat>)
    ensures |r| == |s| && forall i :: 0 <= i < |s| ==> r[i] == s[|s| - 1 - i]
  {
    seq(|s|, i requires 0 <= i < |s| => s[|s| - 1 - i])
  }

  function Zeros(n: nat): (z: seq<nat>)
    ensures |z| == n && forall i :: 0 <= i < n ==> z[i] == 0
  {
    seq(n, _ => 0)
  }

  /** How many zeros (or "1" characters) a string starts with. */
  function Lead(s: seq<nat>): (n: nat)
    ensures n <= |s|
  {
    if s != [] && s[0] == 0 then 1 + Lead(s[1..]) else 0
  }

  /** The number a string denotes, most significant digit first. */
  ghost function Big(s: seq<nat>, base: nat): nat { Value(Rev(s), base) }

  lemma BigAppend(s: seq<nat>, x: nat, base: nat)
    ensures Big(s + [x], base) == Big(s, base) * base + x
  {
    assert Rev(s + [x]) == [x] + Rev(s);
    assert Rev(s + [x])[1..] == Rev(s);
  }

  /** _decode of keys.py for 58 to 256: one zero byte per leading "1", then the number's own bytes. */
  ghost function Convert(s: seq<nat>, from: nat, to: nat): seq<nat>
    requires to >= 2
  {
    Zeros(Lead(s)) + Rev(Digits(Big(s, from), to))
  }

  lemma {:induction false} ValueZeros(d: seq<nat>, n: nat, base: nat)
    ensures Value(d + Zeros(n), base) == Value(d, base)
    decreases |d|, n
  {
    if d != [] {
      assert (d + Zeros(n))[1..] == d[1..] + Zeros(n);
      ValueZeros(d[1..], n, base);
    } else if n > 0 {
      assert (d + Zeros(n))[1..] == d + Zeros(n - 1);
      ValueZeros(d, n - 1, base);
    } else {
      assert d + Zeros(n) == d;
    }
  }

  lemma {:induction false} LeadSplit(s: seq<nat>)
    ensures s == Zeros(Lead(s)) + s[Lead(s)..]
    ensures s[Lead(s)..] != [] ==> s[Lead(s)] != 0
    decreases |s|
  {
    if s != [] && s[0] == 0 {
      LeadSplit(s[1..]);
      assert s == [0] + s[1..];
      assert Zeros(Lead(s)) == [0] + Zeros(Lead(s[1..]));
      assert s[Lead(s)..] == s[1..][Lead(s[1..])..];
    }
  }

  lemma {:induction false} LeadOf(n: nat, t: seq<nat>)
    requires t != [] ==> t[0] != 0
    ensures Lead(Zeros(n) + t) == n
    decreases n
  {
    var s := Zeros(n) + t;
    if n > 0 {
      assert s[1..] == Zeros(n - 1) + t;
      LeadOf(n - 1, t);
    } else {
      assert s == t;
    }
  }

  lemma BigOf(n: nat, t: seq<nat>, base: nat)
    ensures Big(Zeros(n) + t, base) == Big(t, base)
  {
    assert Rev(Zeros(n) + t) == Rev(t) + Zeros(n);
    ValueZeros(Rev(t), n, base);
  }

  /** A string is its leading zeros followed by the digits of its number. */
  lemma NormalForm(s: seq<nat>, base: nat)
    requires base >= 2 && InBase(s, base)
    ensures s == Convert(s, base, base)
  {
    LeadSplit(s);
    var t := s[Lead(s)..];
    BigOf(Lead(s), t, base);
    assert InBase(Rev(t), base) && Canonical(Rev(t));
    CanonicalUnique(Rev(t), Digits(Big(s, base), base), base);
    assert Rev(Rev(t)) == t;
  }

  lemma PaddedInBase(zeros: nat, d: seq<nat>, base: nat)
    requires base >= 2 && InBase(d, base)
    ensures InBase(Zeros(zeros) + Rev(d), base)
  {
  }

  lemma RevRev(d: seq<nat>)
    ensures Rev(Rev(d)) == d
  {
  }

  /** Leading zeros before the digits of a number: a string of that number with those leading zeros. */
  lemma Reading(zeros: nat, n: nat, base: nat)
    requires base >= 2
    ensures var t := Zeros(zeros) + Rev(Digits(n, base));
            InBase(t, base) && Big(t, base) == n && Lead(t) == zeros
  {
    var d := Digits(n, base);
    var digits := Rev(d);
    assert digits != [] ==> digits[0] == d[|d| - 1];
    LeadOf(zeros, digits);
    BigOf(zeros, digits, base);
    PaddedInBase(zeros, d, base);
    RevRev(d);
  }

  /** Conversion keeps the number and the leading zeros, so converting back undoes it. */
  lemma ConvertBack(s: seq<nat>, from: nat, to: nat)
    requires from >= 2 && to >= 2 && InBase(s, from)
    ensures var t := Convert(s, from, to);
            InBase(t, to) && Big(t, to) == Big(s, from) && Lead(t) == Lead(s) && Convert(t, to, from) == s
  {
    Reading(Lead(s), Big(s, from), to);
    NormalForm(s, from);
  }

  /** A string denotes a positive number exactly when some digit is not zero. */
  lemma PositiveBig(s: seq<nat>, base: nat)
    requires base >= 2 && InBase(s, base)
    ensures Big(s, base) > 0 <==> exists i :: 0 <= i < |s| && s[i] != 0
    ensures Big(s, base) == 0 ==> Lead(s) == |s|
  {
    LeadSplit(s);
    var t := s[Lead(s)..];
    BigOf(Lead(s), t, base);
    assert Canonical(Rev(t));
    PositiveValue(Rev(t), base);
    if t != [] { assert s[Lead(s)] != 0; }
  }

  // ------------------------------------------------------------- the loops

  predicate InAlphabet(text: seq<nat>) { forall i :: 0 <= i < |text| ==> text[i] < 58 }

  /** The bytes b58decode builds before it compares their number with the length asked for. */
  ghost function Built(text: seq<nat>): seq<nat> {
    Zeros(Lead(text)) + Rev(Padded(Big(text, 58), 256))
  }

  ghost function Decoded(text: seq<nat>, length: nat): Option<seq<nat>> {
    if text == [] || !InAlphabet(text) then None
    else if |Built(text)| == length then Some(Built(text)) else None
  }

  ghost function Encoded(bytes: seq<nat>): seq<nat> {
    Zeros(Lead(bytes)) + Rev(Padded(Big(bytes, 256), 58))
  }

  /** Writing the next digit over the first that is still to do. */
  lemma ReplaceNext(done: seq<nat>, start: seq<nat>, i: nat, x: nat)
    requires |done| == i < |start|
    ensures (done + start[i..])[i := x] == done + [x] + start[i + 1..]
  {
  }

  /** The two directions of the conversion. */
  predicate Bases(factor: nat, base: nat) { (factor == 58 && base == 256) || (factor == 256 && base == 58) }

  /** Carries stay below the factor, and every word below the product of factor and base. */
  lemma CarrySmall(carry: nat, d: nat, factor: nat, base: nat)
    requires Bases(factor, base) && carry < factor && d < base
    ensures carry + Product(d, factor) < 14_848 && Upper(carry + Product(d, factor), base) < factor
  {
    if base == 256 {
      assert Product(d, 58) == d * 58;
    } else {
      assert Product(d, 256) == d * 256;
    }
  }

  /** The words that the loops hold on the way. */
  function Words(digits: seq<nat>, factor: nat, carry: nat, base: nat): seq<nat>
    requires base >= 2
    decreases |digits|, carry
  {
    if digits != [] then
      var c := carry + Product(digits[0], factor);
      [c] + Words(digits[1..], factor, Upper(c, base), base)
    else if carry != 0 then [carry] + Words([], factor, Upper(carry, base), base)
    else []
  }

  /** JavaScript's shifts wrap at 2^31; no word comes near. */
  lemma {:induction false} WordsSmall(digits: seq<nat>, factor: nat, carry: nat, base: nat)
    requires Bases(factor, base) && InBase(digits, base) && carry < factor
    ensures forall i :: 0 <= i < |Words(digits, factor, carry, base)| ==> Words(digits, factor, carry, base)[i] < 14_848
    decreases |digits|, carry
  {
    if digits != [] {
      CarrySmall(carry, digits[0], factor, base);
      WordsSmall(digits[1..], factor, Upper(carry + Product(digits[0], factor), base), base);
    } else if carry != 0 {
      WordsSmall([], factor, Upper(carry, base), base);
    }
  }

  /** Writing the carry out, digit by digit, above the digits there are. */
  method PushCarry(start: seq<nat>, factor: nat, carry0: nat, base: nat) returns (digits: seq<nat>)
    requires base >= 2
    ensures digits == start + MulAdd([], factor, carry0, base)
  {
    digits := start;
    var carry := carry0;
    while carry != 0
      invariant start + MulAdd([], factor, carry0, base) == digits + MulAdd([], factor, carry, base)
      decreases carry
    {
      PushStep(digits, factor, carry, base);
      digits := digits + [Lower(carry, base)];
      carry := Upper(carry, base);
    }
  }

  lemma PushStep(digits: seq<nat>, factor: nat, carry: nat, base: nat)
    requires base >= 2 && carry != 0
    ensures digits + MulAdd([], factor, carry, base) ==
            digits + [Lower(carry, base)] + MulAdd([], factor, Upper(carry, base), base)
  {
  }

  lemma MulAddNext(done: seq<nat>, start: seq<nat>, i: nat, factor: nat, carry: nat, base: nat)
    requires base >= 2 && i < |start|
    ensures var c := carry + Product(start[i], factor);
            done + MulAdd(start[i..], factor, carry, base) ==
            done + [Lower(c, base)] + MulAdd(start[i + 1..], factor, Upper(c, base), base)
  {
    MulAddHead(start, i, factor, carry, base);
  }

  /** The inner loops of b58decode (58 into 256) and of b58encode (256 into 58), over the digits in place. */
  method CarryInto(start: seq<nat>, factor: nat, carry0: nat, base: nat) returns (digits: seq<nat>)
    requires Bases(factor, base) && InBase(start, base) && carry0 < factor
    ensures digits == MulAdd(start, factor, carry0, base)
  {
    digits := start;
    var carry: nat := carry0;
    ghost var done: seq<nat> := [];
    for i := 0 to |digits|
      invariant |done| == i && |digits| == |start| && carry < factor
      invariant digits == done + start[i..]
      invariant MulAdd(start, factor, carry0, base) == done + MulAdd(start[i..], factor, carry, base)
    {
      MulAddNext(done, start, i, factor, carry, base);
      CarrySmall(carry, start[i], factor, base);
      carry := carry + Product(digits[i], factor);
      assert carry < 0x8000_0000;
      ReplaceNext(done, start, i, Lower(carry, base));
      digits := digits[i := Lower(carry, base)];
      done := done + [Lower(carry, base)];
      carry := Upper(carry, base);
    }
    digits := PushCarry(digits, factor, carry, base);
  }

  /** A round over the next character keeps the digits those of the number read so far. */
  lemma RoundAppend(s: seq<nat>, k: nat, from: nat, to: nat)
    requires k < |s| && to >= 2 && from > 0
    ensures MulAdd(Padded(Big(s[..k], from), to), from, s[k], to) == Padded(Big(s[..k + 1], from), to)
  {
    assert s[..k + 1] == s[..k] + [s[k]];
    BigAppend(s[..k], s[k], from);
    Round(Big(s[..k], from), from, s[k], to);
  }

  /** The loops over the leading "1" characters, and over the leading zero bytes. */
  method PushLeading(s: seq<nat>, start: seq<nat>) returns (out: seq<nat>)
    ensures out == start + Zeros(Lead(s))
  {
    out := start;
    var k := 0;
    LeadSplit(s);
    while k < |s| && s[k] == 0
      invariant k <= Lead(s) && out == start + Zeros(k)
    {
      out := out + [0];
      k := k + 1;
    }
  }

  method B58Decode(text: seq<nat>, length: nat) returns (r: Option<seq<nat>>)
    ensures r == Decoded(text, length)
  {
    if text == [] { return None; }
    var bytes := [0];
    for k := 0 to |text|
      invariant InAlphabet(text[..k])
      invariant bytes == Padded(Big(text[..k], 58), 256)
    {
      if text[k] >= 58 { return None; }
      RoundAppend(text, k, 58, 256);
      bytes := CarryInto(bytes, 58, text[k], 256);
    }
    assert text[..|text|] == text;
    ghost var built := bytes;
    bytes := PushLeading(text, bytes);
    assert Rev(bytes) == Zeros(Lead(text)) + Rev(built);
    if |bytes| == length { return Some(Rev(bytes)); }
    return None;
  }

  method B58Encode(bytes: seq<nat>) returns (text: seq<nat>)
    requires InBase(bytes, 256)
    ensures text == Encoded(bytes)
  {
    var digits := [0];
    for k := 0 to |bytes|
      invariant digits == Padded(Big(bytes[..k], 256), 58)
    {
      RoundAppend(bytes, k, 256, 58);
      digits := CarryInto(digits, 256, bytes[k], 58);
    }
    assert bytes[..|bytes|] == bytes;
    text := PushLeading(bytes, []);
    var i := |digits|;
    while i > 0
      invariant 0 <= i <= |digits| && text == Zeros(Lead(bytes)) + Rev(digits)[..|digits| - i]
    {
      i := i - 1;
      text := text + [digits[i]];
    }
  }

  /** _decode of keys.py: the number of the text, then its bytes. An unknown character raises. */
  method DecodeAddress(address: seq<nat>) returns (r: Option<seq<nat>>)
    ensures r == if InAlphabet(address) then Some(Convert(address, 58, 256)) else None
  {
    var number := 0;
    assert Rev(address[..0]) == [];
    for k := 0 to |address|
      invariant InAlphabet(address[..k]) && number == Big(address[..k], 58)
    {
      if address[k] >= 58 { return None; }
      assert address[..k + 1] == address[..k] + [address[k]];
      BigAppend(address[..k], address[k], 58);
      number := number * 58 + address[k];
    }
    assert address[..|address|] == address;
    return Some(Zeros(Lead(address)) + Rev(Digits(number, 256)));
  }

  // ------------------------------------------------------------- properties

  /** The byte loop and the big-number decoder build the same bytes exactly when the text denotes a
      nonzero number; otherwise the byte loop builds one byte more. */
  lemma DecodersAgree(text: seq<nat>)
    requires InAlphabet(text)
    ensures Built(text) == Convert(text, 58, 256) <==> Big(text, 58) != 0
    ensures Big(text, 58) == 0 ==> Built(text) == Convert(text, 58, 256) + [0]
  {
    if Big(text, 58) == 0 {
      assert Rev([0]) == [0] && Rev([]) == [];
      assert |Built(text)| == |Convert(text, 58, 256)| + 1;
    }
  }

  /** Decoding what was encoded, at the original length, gives the original bytes back exactly when
      some byte is not zero. */
  lemma EncodeThenDecode(bytes: seq<nat>)
    requires InBase(bytes, 256)
    ensures Decoded(Encoded(bytes), |bytes|) == Some(bytes) <==> exists i :: 0 <= i < |bytes| && bytes[i] != 0
  {
    PositiveBig(bytes, 256);
    if Big(bytes, 256) > 0 {
      ConvertBack(bytes, 256, 58);
    } else {
      assert Rev([0]) == [0];
      var text := Encoded(bytes);
      assert text == Zeros(|bytes| + 1);
      PositiveBig(text, 58);
      assert |Built(text)| == |bytes| + 2;
    }
  }

  /** The other direction: a text that decodes and denotes a nonzero number is the encoding of its bytes,
      so two texts never decode to the same bytes. */
  lemma DecodeThenEncode(text: seq<nat>, length: nat)
    requires Decoded(text, length).Some?
    ensures Encoded(Decoded(text, length).value) == text <==> Big(text, 58) != 0
  {
    if Big(text, 58) != 0 {
      ConvertBack(text, 58, 256);
    } else {
      PositiveBig(text, 58);
      var bytes := Built(text);
      assert Rev([0]) == [0];
      assert bytes == Zeros(|text| + 1);
      PositiveBig(bytes, 256);
      assert |Encoded(bytes)| == |text| + 2;
    }
  }

  /** A text decodes at a length if and only if it is not empty, all its characters are in the alphabet, and its number
      with its leading zeros takes that many bytes; then it decodes to bytes of that length and number. */
  lemma DecodesExactly(text: seq<nat>, length: nat)
    ensures Decoded(text, length).Some? <==>
            text != [] && (forall i :: 0 <= i < |text| ==> text[i] < 58) &&
            length == Lead(text) + (if Big(text, 58) == 0 then 1 else |Digits(Big(text, 58), 256)|)
    ensures Decoded(text, length).Some? ==>
              var bytes := Decoded(text, length).value;
              |bytes| == length && InBase(bytes, 256) && Big(bytes, 256) == Big(text, 58)
  {
    if Decoded(text, length).Some? {
      if Big(text, 58) == 0 {
        assert Rev([0]) == [0];
        var bytes := Built(text);
        PositiveBig(bytes, 256);
      } else {
        Reading(Lead(text), Big(text, 58), 256);
      }
    }
  }
}
