/**
 Exact decimal numbers (value.go:186-221, 750-853).

 The grammar of section 6 of RFC 8259 is the reference: a number is a syntax tree, `Spell` writes it
 down, and `ValueOf` says which rational it stands for.  canonicalNumber is proved to accept exactly
 the spellings, to keep the value, and to give every value one spelling.
 */
module Decimals {
  import Charts

  // ---- the grammar ----

  datatype Power = Plain | Scaled(mark: char, sign: string, digits: string)

  /** An empty fraction stands for none: after a point at least one digit is required. */
  datatype Number = Number(negative: bool, integer: string, fraction: string, power: Power)

  predicate IsDigit(ch: char) { '0' <= ch <= '9' }

  predicate AllDigits(s: string) { forall i :: 0 <= i < |s| ==> IsDigit(s[i]) }

  predicate PowerGrammar(p: Power) {
    p.Scaled? ==>
      && (p.mark == 'e' || p.mark == 'E')
      && (p.sign == "" || p.sign == "+" || p.sign == "-")
      && p.digits != "" && AllDigits(p.digits)
  }

  predicate Grammar(n: Number) {
    && n.integer != "" && AllDigits(n.integer) && (n.integer[0] == '0' ==> |n.integer| == 1)
    && AllDigits(n.fraction)
    && PowerGrammar(n.power)
  }

  function SpellSign(negative: bool): string { if negative then "-" else "" }

  function SpellFraction(fraction: string): string { if fraction == "" then "" else "." + fraction }

  function SpellPower(p: Power): string {
    match p
    case Plain => ""
    case Scaled(mark, sign, digits) => [mark] + (sign + digits)
  }

  function Spell(n: Number): string {
    SpellSign(n.negative) + (n.integer + (SpellFraction(n.fraction) + SpellPower(n.power)))
  }

  ghost predicate IsJsonNumber(s: string) { exists n :: Grammar(n) && Spell(n) == s }

  // ---- reading a number ----

  function DigitCount(s: string): (n: nat)
    ensures n <= |s|
  {
    if s != "" && IsDigit(s[0]) then 1 + DigitCount(s[1..]) else 0
  }

  /** The digits s begins with. */
  function Digits(s: string): string { s[..DigitCount(s)] }

  lemma {:induction false} DigitsAre(s: string)
    ensures |Digits(s)| <= |s| && AllDigits(Digits(s)) && (|Digits(s)| < |s| ==> !IsDigit(s[|Digits(s)|]))
    decreases |s|
  {
    if s != "" && IsDigit(s[0]) {
      DigitsAre(s[1..]);
      assert Digits(s) == [s[0]] + Digits(s[1..]);
    }
  }

  lemma {:induction false} DigitsOf(d: string, t: string)
    requires AllDigits(d) && (t == "" || !IsDigit(t[0]))
    ensures Digits(d + t) == d && (d + t)[|d|..] == t
    decreases |d|
  {
    if d == "" {
      assert d + t == t;
    } else {
      assert (d + t)[1..] == d[1..] + t;
      DigitsOf(d[1..], t);
      assert d == [d[0]] + d[1..];
    }
  }

  function ParsePower(s: string): Charts.Option<Power> {
    if s == "" then Charts.Some(Plain)
    else if s[0] != 'e' && s[0] != 'E' then Charts.None
    else
      var sign := if |s| > 1 && (s[1] == '+' || s[1] == '-') then [s[1]] else "";
      var rest := s[1 + |sign|..];
      var digits := Digits(rest);
      if digits == "" || digits != rest then Charts.None else Charts.Some(Scaled(s[0], sign, digits))
  }

  function ParseFraction(negative: bool, integer: string, s: string): Charts.Option<Number> {
    var fraction := if s != "" && s[0] == '.' then Digits(s[1..]) else "";
    if s != "" && s[0] == '.' && fraction == "" then Charts.None
    else
      match ParsePower(s[|SpellFraction(fraction)|..])
      case None => Charts.None
      case Some(power) => Charts.Some(Number(negative, integer, fraction, power))
  }

  function Parse(s: string): Charts.Option<Number> {
    var negative := s != "" && s[0] == '-';
    var t := s[|SpellSign(negative)|..];
    var integer := Digits(t);
    if integer == "" || (integer[0] == '0' && |integer| > 1) then Charts.None
    else ParseFraction(negative, integer, t[|integer|..])
  }

  lemma ParsePowerOf(p: Power)
    requires PowerGrammar(p)
    ensures ParsePower(SpellPower(p)) == Charts.Some(p)
  {
    if p.Scaled? {
      var s := SpellPower(p);
      DigitsOf(p.digits, "");
      assert p.digits + "" == p.digits;
      hide DigitCount;
      assert s[1 + |p.sign|..] == p.digits;
      if p.sign == "" { assert s[1] == p.digits[0] && IsDigit(s[1]); }
    }
  }

  lemma ParsePowerSound(s: string)
    requires ParsePower(s).Some?
    ensures PowerGrammar(ParsePower(s).value) && SpellPower(ParsePower(s).value) == s
  {
    hide DigitCount;
    if s != "" {
      var p := ParsePower(s).value;
      DigitsAre(s[1 + |p.sign|..]);
      assert s == [s[0]] + (p.sign + s[1 + |p.sign|..]);
    }
  }

  lemma SpelledTail(p: Power)
    requires PowerGrammar(p)
    ensures SpellPower(p) == "" || !IsDigit(SpellPower(p)[0])
    ensures SpellPower(p) == "" || SpellPower(p)[0] != '.'
  {}

  lemma ParseFractionOf(negative: bool, integer: string, fraction: string, p: Power)
    requires AllDigits(fraction) && PowerGrammar(p)
    ensures ParseFraction(negative, integer, SpellFraction(fraction) + SpellPower(p)) ==
      Charts.Some(Number(negative, integer, fraction, p))
  {
    ParsePowerOf(p);
    SpelledTail(p);
    if fraction == "" { NoPoint(SpellPower(p)); } else { Point(fraction, SpellPower(p)); }
    hide ParsePower, SpellPower, DigitCount, PowerGrammar, AllDigits, Digits;
  }

  lemma NoPoint(tail: string)
    requires tail == "" || tail[0] != '.'
    ensures var s := SpellFraction("") + tail; (s == "" || s[0] != '.') && s[0..] == tail
  {
    assert "" + tail == tail;
  }

  lemma Point(fraction: string, tail: string)
    requires fraction != "" && AllDigits(fraction) && (tail == "" || !IsDigit(tail[0]))
    ensures var s := SpellFraction(fraction) + tail;
      s != "" && s[0] == '.' && Digits(s[1..]) == fraction && s[|SpellFraction(fraction)|..] == tail
  {
    hide DigitCount, AllDigits, Digits;
    var s := SpellFraction(fraction) + tail;
    assert s[1..] == fraction + tail;
    DigitsOf(fraction, tail);
  }

  /** Every spelling is read back as the number it spells, so the grammar is unambiguous. */
  lemma ParseOfSpell(n: Number)
    requires Grammar(n)
    ensures Parse(Spell(n)) == Charts.Some(n)
  {
    ParseFractionOf(n.negative, n.integer, n.fraction, n.power);
    SpelledTail(n.power);
    hide ParseFraction, SpellPower, DigitCount;
    var tail := SpellFraction(n.fraction) + SpellPower(n.power);
    var s := Spell(n);
    assert IsDigit(n.integer[0]);
    assert tail == "" || !IsDigit(tail[0]);
    assert s[|SpellSign(n.negative)|..] == n.integer + tail;
    DigitsOf(n.integer, tail);
  }

  lemma ParseFractionSound(negative: bool, integer: string, s: string)
    requires ParseFraction(negative, integer, s).Some?
    ensures var n := ParseFraction(negative, integer, s).value;
      n.negative == negative && n.integer == integer && AllDigits(n.fraction) && PowerGrammar(n.power)
      && SpellFraction(n.fraction) + SpellPower(n.power) == s
  {
    hide ParsePower, SpellPower, DigitCount, PowerGrammar;
    var n := ParseFraction(negative, integer, s).value;
    if s != "" && s[0] == '.' { DigitsAre(s[1..]); assert s == "." + s[1..]; }
    var rest := s[|SpellFraction(n.fraction)|..];
    assert s == SpellFraction(n.fraction) + rest;
    ParsePowerSound(rest);
  }

  lemma ParseSound(s: string)
    requires Parse(s).Some?
    ensures Grammar(Parse(s).value) && Spell(Parse(s).value) == s
  {
    hide ParseFraction, SpellPower, SpellFraction, DigitCount, PowerGrammar, Digits;
    var negative := s != "" && s[0] == '-';
    var t := s[|SpellSign(negative)|..];
    DigitsAre(t);
    ParseFractionSound(negative, Digits(t), t[|Digits(t)|..]);
    SplitDigits(t);
    SplitSign(s);
  }

  lemma SplitDigits(t: string)
    ensures |Digits(t)| <= |t| && t == Digits(t) + t[|Digits(t)|..]
  {}

  lemma SplitSign(s: string)
    ensures var sign := SpellSign(s != "" && s[0] == '-'); |sign| <= |s| && s == sign + s[|sign|..]
  {}

  /** Reading succeeds on exactly the strings of the grammar. */
  lemma ParseIsGrammar(s: string)
    ensures Parse(s).Some? <==> IsJsonNumber(s)
  {
    if Parse(s).Some? { ParseSound(s); }
    if IsJsonNumber(s) {
      var n :| Grammar(n) && Spell(n) == s;
      ParseOfSpell(n);
    }
  }

  // ---- the value of a number ----

  function DigitValue(ch: char): nat
    requires IsDigit(ch)
  {
    ch as int - '0' as int
  }

  function NatOf(d: string): nat
    requires AllDigits(d)
  {
    if d == "" then 0 else 10 * NatOf(d[..|d| - 1]) + DigitValue(d[|d| - 1])
  }

  function Pow10(k: nat): (r: nat)
    ensures r > 0
  {
    if k == 0 then 1 else 10 * Pow10(k - 1)
  }

  /** 10 to the power e. */
  ghost function Scale(e: int): (r: real)
    ensures r > 0.0
  {
    if e >= 0 then Pow10(e) as real else 1.0 / Pow10(-e) as real
  }

  function WithSign(negative: bool, n: int): int { if negative then -n else n }

  function PowerValue(p: Power): int
    requires PowerGrammar(p)
  {
    if p.Plain? then 0 else WithSign(p.sign == "-", NatOf(p.digits))
  }

  ghost function Signed(negative: bool, r: real): real { if negative then -r else r }

  /** (integer + fraction / 10^|fraction|) * 10^power, with its sign. */
  ghost function ValueOf(n: Number): real
    requires Grammar(n)
  {
    Signed(n.negative, (NatOf(n.integer) as real
      + NatOf(n.fraction) as real * Scale(-|n.fraction|)) * Scale(PowerValue(n.power)))
  }

  /** The rational a JSON number stands for. */
  ghost function Value(s: string): real
    requires IsJsonNumber(s)
  {
    ParseIsGrammar(s);
    ParseSound(s);
    ValueOf(Parse(s).value)
  }

  // ---- the canonical spelling ----

  /** A nonzero number is an odd-looking coefficient: no zero at either end, and a power of ten. */
  datatype Normal = Zero | Scientific(negative: bool, digits: string, exponent: int)

  predicate IsNormal(m: Normal) {
    m.Scientific? ==> m.digits != "" && AllDigits(m.digits) && m.digits[0] != '0' && m.digits[|m.digits| - 1] != '0'
  }

  function DropLeading(d: string): string
  {
    if d != "" && d[0] == '0' then DropLeading(d[1..]) else d
  }

  function DropTrailing(d: string): string
  {
    if d != "" && d[|d| - 1] == '0' then DropTrailing(d[..|d| - 1]) else d
  }

  function Normalize(n: Number): Normal
    requires Grammar(n)
  {
    var digits := DropLeading(n.integer + n.fraction);
    if digits == "" then Zero
    else
      var core := DropTrailing(digits);
      Scientific(n.negative, core, PowerValue(n.power) - |n.fraction| + (|digits| - |core|))
  }

  function ShowNat(n: nat): (r: string)
    ensures r != "" && AllDigits(r) && NatOf(r) == n
    ensures r[0] == '0' ==> n == 0
  {
    if n < 10 then [('0' as int + n) as char]
    else
      var last := [('0' as int + n % 10) as char];
      var r := ShowNat(n / 10) + last;
      assert r[..|r| - 1] == ShowNat(n / 10);
      r
  }

  /** The decimal spelling of an integer: big.Int's String and strconv's FormatInt. */
  function ShowInt(n: int): string { if n < 0 then "-" + ShowNat(-n) else ShowNat(n) }

  function ShowExponent(e: int): string { if e == 0 then "" else "e" + ShowInt(e) }

  function Print(m: Normal): string {
    match m
    case Zero => "0"
    case Scientific(negative, digits, exponent) =>
      SpellSign(negative) + (digits + ShowExponent(exponent))
  }

  /** What canonicalNumber returns: the canonical spelling, or nothing for a malformed number. */
  function Canonical(s: string): Charts.Option<string> {
    match Parse(s)
    case None => Charts.None
    case Some(n) =>
      ParseSound(s);
      Charts.Some(Print(Normalize(n)))
  }

  // ---- canonicalNumber ----

  /** One of the source's digit loops (value.go:773-775, 785-787, 803-805). */
  method ScanDigits(input: string, start: nat) returns (position: nat)
    requires start <= |input|
    ensures start <= position <= |input| && input[start..position] == Digits(input[start..])
  {
    position := start;
    while position < |input| && IsDigit(input[position])
      invariant start <= position <= |input|
      invariant DigitCount(input[start..]) == position - start + DigitCount(input[position..])
    {
      assert input[position..][1..] == input[position + 1..];
      position := position + 1;
    }
    assert input[start..][..position - start] == input[start..position];
  }

  /** The two stripping loops (value.go:819-836). */
  method Strip(all: string) returns (digits: string, trailing: nat)
    ensures var kept := DropLeading(all); digits == DropTrailing(kept) && trailing == |kept| - |digits|
  {
    var first := 0;
    while first < |all| && all[first] == '0'
      invariant 0 <= first <= |all|
      invariant DropLeading(all) == DropLeading(all[first..])
    {
      assert all[first..][1..] == all[first + 1..];
      first := first + 1;
    }
    digits := all[first..];
    trailing := 0;
    assert digits[..|digits| - 0] == digits;
    while |digits| - trailing > 0 && digits[|digits| - 1 - trailing] == '0'
      invariant 0 <= trailing <= |digits|
      invariant DropTrailing(digits) == DropTrailing(digits[..|digits| - trailing])
    {
      assert digits[..|digits| - trailing][..|digits| - trailing - 1] == digits[..|digits| - (trailing + 1)];
      trailing := trailing + 1;
    }
    digits := digits[..|digits| - trailing];
  }

  // what each stretch of the scan has established about reading the whole

  lemma ReadInteger(s: string, negative: bool, integer: string)
    requires negative == (s != "" && s[0] == '-') && integer == Digits(s[|SpellSign(negative)|..])
    ensures Parse(s) ==
      if integer == "" || (integer[0] == '0' && |integer| > 1) then Charts.None
      else ParseFraction(negative, integer, s[|SpellSign(negative)|..][|integer|..])
  {}

  lemma ReadFraction(negative: bool, integer: string, s: string, fraction: string)
    requires fraction == if s != "" && s[0] == '.' then Digits(s[1..]) else ""
    ensures ParseFraction(negative, integer, s) ==
      if s != "" && s[0] == '.' && fraction == "" then Charts.None
      else if ParsePower(s[|SpellFraction(fraction)|..]).None? then Charts.None
      else Charts.Some(Number(negative, integer, fraction, ParsePower(s[|SpellFraction(fraction)|..]).value))
  {}

  lemma ReadPower(s: string, sign: string, digits: string)
    requires s != "" && (s[0] == 'e' || s[0] == 'E')
    requires sign == if |s| > 1 && (s[1] == '+' || s[1] == '-') then [s[1]] else ""
    requires digits == Digits(s[1 + |sign|..])
    ensures ParsePower(s) ==
      if digits == "" || 1 + |sign| + |digits| != |s| then Charts.None else Charts.Some(Scaled(s[0], sign, digits))
    ensures AllDigits(digits)
  {
    DigitsAre(s[1 + |sign|..]);
  }

  lemma ReadNoPower(s: string)
    requires s == "" || (s[0] != 'e' && s[0] != 'E')
    ensures ParsePower(s) == if s == "" then Charts.Some(Plain) else Charts.None
  {}

  lemma CanonicalOf(s: string, n: Number)
    requires Parse(s) == Charts.Some(n)
    ensures Grammar(n) && Canonical(s) == Charts.Some(Print(Normalize(n)))
  {
    ParseSound(s);
  }

  lemma NoLeadingZero(t: string)
    requires t != "" && t[0] == '0'
    ensures |t| > 1 && IsDigit(t[1]) ==> |Digits(t)| > 1 && Digits(t)[0] == '0'
    ensures !(|t| > 1 && IsDigit(t[1])) ==> Digits(t) == "0"
  {
    assert t[..1] == "0" && DigitCount(t) == 1 + DigitCount(t[1..]);
    if |t| > 1 { assert t[1..][0] == t[1]; }
  }

  lemma NoDigits(t: string)
    requires t != "" && !IsDigit(t[0])
    ensures Digits(t) == ""
  {}

  /** The integer part (value.go:766-780). */
  method ReadIntegerPart(input: string, start: nat) returns (ok: bool, position: nat)
    requires start <= |input|
    ensures ok <==> Digits(input[start..]) != "" && !(Digits(input[start..])[0] == '0' && |Digits(input[start..])| > 1)
    ensures ok ==> start < position <= |input| && input[start..position] == Digits(input[start..])
  {
    position := start;
    ghost var t := input[start..];
    if position == |input| { return false, position; }
    if input[position] == '0' {
      position := position + 1;
      NoLeadingZero(t);
      if position < |input| && IsDigit(input[position]) { return false, position; }
    } else if '1' <= input[position] <= '9' {
      position := ScanDigits(input, position);
      assert t[0] == input[start] && DigitCount(t) > 0;
    } else {
      NoDigits(t);
      return false, position;
    }
    ok := true;
  }

  /** The fraction (value.go:782-792). */
  method ReadFractionPart(input: string, start: nat) returns (ok: bool, position: nat, fraction: string)
    requires start <= |input|
    ensures var u := input[start..];
      && fraction == (if u != "" && u[0] == '.' then Digits(u[1..]) else "")
      && ok == !(u != "" && u[0] == '.' && fraction == "")
      && (ok ==> position == start + |SpellFraction(fraction)| && position <= |input|)
  {
    position, fraction, ok := start, "", true;
    if position < |input| && input[position] == '.' {
      position := position + 1;
      assert input[start..][1..] == input[position..];
      position := ScanDigits(input, position);
      fraction := input[start + 1..position];
      ok := position != start + 1;
    }
  }

  /** The exponent, and nothing after it (value.go:794-814). */
  method ReadExponent(input: string, start: nat) returns (ok: bool, exponent: int, ghost power: Power)
    requires start <= |input|
    ensures ok <==> ParsePower(input[start..]).Some?
    ensures ok ==>
      ParsePower(input[start..]) == Charts.Some(power) && PowerGrammar(power)
      && exponent == PowerValue(power)
  {
    hide ParsePower, DigitCount, Digits, NatOf;
    var position := start;
    ghost var v := input[start..];
    exponent, power := 0, Plain;
    if position < |input| && (input[position] == 'e' || input[position] == 'E') {
      position := position + 1;
      var exponentNegative := false;
      ghost var sign := "";
      if position < |input| && (input[position] == '+' || input[position] == '-') {
        exponentNegative := input[position] == '-';
        sign := [input[position]];
        position := position + 1;
      }
      var exponentStart := position;
      position := ScanDigits(input, position);
      assert v[1 + |sign|..] == input[exponentStart..];
      ReadPower(v, sign, input[exponentStart..position]);
      if position == exponentStart { return false, 0, Plain; }
      exponent := NatOf(input[exponentStart..position]);
      if exponentNegative { exponent := -exponent; }
      power := Scaled(v[0], sign, input[exponentStart..position]);
    } else {
      ReadNoPower(v);
    }
    ok := position == |input|;
  }

  lemma After(input: string, start: nat, middle: nat)
    requires start + middle <= |input|
    ensures input[start..][middle..] == input[start + middle..]
  {}

  /** canonicalNumber (value.go:750-845). */
  method CanonicalNumber(input: string) returns (r: Charts.Option<string>)
    ensures r == Canonical(input)
  {
    hide Parse, ParseFraction, ParsePower, DigitCount, Digits, NatOf, PowerValue, DropLeading, DropTrailing, ShowInt,
      PowerGrammar;
    var negative := input != "" && input[0] == '-';
    var start := if negative then 1 else 0;
    ghost var integer', u := Digits(input[start..]),
      input[start..][|Digits(input[start..])|..] by { DigitsAre(input[start..]); }
    ReadInteger(input, negative, integer');
    var ok, position := ReadIntegerPart(input, start);
    if !ok { return Charts.None; }
    var integer := input[start..position];
    After(input, start, |integer|);
    var fine, next, fraction := ReadFractionPart(input, position);
    ReadFraction(negative, integer, u, fraction);
    if !fine { return Charts.None; }
    After(input, position, |SpellFraction(fraction)|);
    var good, exponent, power := ReadExponent(input, next);
    if !good { return Charts.None; }
    CanonicalOf(input, Number(negative, integer, fraction, power));
    var digits, trailing := Strip(integer + fraction);
    if DropLeading(integer + fraction) == "" { return Charts.Some("0"); }
    r := Charts.Some(Print(Scientific(negative, digits, exponent - |fraction| + trailing)));
  }

  // ---- powers of ten ----

  lemma ScaleStep(e: int)
    ensures Scale(e + 1) == 10.0 * Scale(e)
  {
    if e < 0 {
      assert Pow10(-e) == 10 * Pow10(-e - 1);
      TenthOf(Pow10(-e - 1) as real);
    }
  }

  lemma TenthOf(r: real)
    requires r > 0.0
    ensures 1.0 / r == 10.0 * (1.0 / (10.0 * r))
  {}

  lemma ScaleZero()
    ensures Scale(0) == 1.0
  {}

  lemma {:induction false} ScaleAdd(a: int, b: int)
    ensures Scale(a + b) == Scale(a) * Scale(b)
    decreases if b < 0 then -b else b
  {
    hide Scale;
    if b == 0 {
      ScaleZero();
    } else if b > 0 {
      ScaleAdd(a, b - 1);
      ScaleStep(a + b - 1);
      ScaleStep(b - 1);
      Swap(Scale(a), Scale(b - 1));
    } else {
      ScaleAdd(a, b + 1);
      ScaleStep(a + b);
      ScaleStep(b);
      Swap(Scale(a), Scale(b));
    }
  }

  lemma Swap(x: real, y: real)
    ensures 10.0 * (x * y) == x * (10.0 * y)
  {}

  lemma {:induction false} NatOfConcat(a: string, b: string)
    requires AllDigits(a) && AllDigits(b)
    ensures NatOf(a + b) == NatOf(a) * Pow10(|b|) + NatOf(b)
    decreases |b|
  {
    if b == "" {
      assert a + b == a;
    } else {
      var c := b[..|b| - 1];
      assert (a + b)[..|a + b| - 1] == a + c;
      NatOfConcat(a, c);
      Distribute(NatOf(a), Pow10(|c|), NatOf(c), DigitValue(b[|b| - 1]));
    }
  }

  lemma Distribute(a: int, p: int, c: int, d: int)
    ensures 10 * (a * p + c) + d == a * (10 * p) + (10 * c + d)
  {}

  // ---- normalizing keeps the value ----

  lemma {:induction false} LeadingValue(d: string)
    requires AllDigits(d)
    ensures AllDigits(DropLeading(d)) && NatOf(DropLeading(d)) == NatOf(d)
    ensures DropLeading(d) != "" ==> DropLeading(d)[0] != '0'
    decreases |d|
  {
    if d != "" && d[0] == '0' {
      LeadingValue(d[1..]);
      assert d == "0" + d[1..];
      NatOfConcat("0", d[1..]);
      assert "0"[..0] == "";
    }
  }

  lemma {:induction false} TrailingValue(d: string)
    requires AllDigits(d)
    ensures var r := DropTrailing(d);
      r <= d && NatOf(d) == NatOf(r) * Pow10(|d| - |r|) && (r != "" ==> r[|r| - 1] != '0')
    decreases |d|
  {
    if d != "" && d[|d| - 1] == '0' {
      var c := d[..|d| - 1];
      TrailingValue(c);
      var r := DropTrailing(c);
      Distribute(NatOf(r), Pow10(|c| - |r|), 0, 0);
    }
  }

  lemma {:induction false} Positive(d: string)
    requires AllDigits(d) && d != "" && d[0] != '0'
    ensures NatOf(d) > 0 && DropTrailing(d) != ""
    decreases |d|
  {
    if |d| > 1 { Positive(d[..|d| - 1]); }
  }

  ghost function NormalValue(m: Normal): real
    requires IsNormal(m)
  {
    match m
    case Zero => 0.0
    case Scientific(negative, digits, exponent) => Signed(negative, NatOf(digits) as real * Scale(exponent))
  }

  /** The fraction only moves the point: i + f/10^k is (the digits of both)/10^k. */
  lemma PointMoves(i: string, f: string)
    requires AllDigits(i) && AllDigits(f)
    ensures NatOf(i) as real + NatOf(f) as real * Scale(-|f|) == NatOf(i + f) as real * Scale(-|f|)
  {
    hide NatOf, Scale, Pow10, AllDigits;
    NatOfConcat(i, f);
    ScaleAdd(|f|, -|f|);
    ScaleZero();
    ScaleNat(|f|);
    Cancel(NatOf(i) as real, Pow10(|f|) as real, Scale(-|f|), NatOf(f) as real);
    AsReal(NatOf(i), Pow10(|f|), NatOf(f));
  }

  lemma AsReal(a: int, b: int, c: int)
    ensures (a * b + c) as real == a as real * b as real + c as real
  {}

  lemma Cancel(i: real, p: real, q: real, f: real)
    requires p * q == 1.0
    ensures i + f * q == (i * p + f) * q
  {
    calc {
      (i * p + f) * q;
      (i * p) * q + f * q;
      i * (p * q) + f * q;
    }
  }

  lemma Regroup(m: real, a: real, b: real)
    ensures (m * a) * b == m * (a * b)
  {}

  /** A number is its digits, taken as one integer, times a power of ten. */
  lemma DigitsForm(n: Number, all: string, e: int)
    requires Grammar(n) && all == n.integer + n.fraction && e == PowerValue(n.power) - |n.fraction|
    ensures AllDigits(all) && ValueOf(n) == Signed(n.negative, NatOf(all) as real * Scale(e))
  {
    hide NatOf, Scale, PowerValue, PowerGrammar;
    PointMoves(n.integer, n.fraction);
    Regroup(NatOf(all) as real, Scale(-|n.fraction|), Scale(PowerValue(n.power)));
    ScaleAdd(-|n.fraction|, PowerValue(n.power));
  }

  /** Trailing zeros move into the power of ten. */
  lemma CoreForm(d: string, e: int)
    requires AllDigits(d)
    ensures var core := DropTrailing(d);
      core <= d && NatOf(d) as real * Scale(e) == NatOf(core) as real * Scale(e + (|d| - |core|))
  {
    hide NatOf, Scale, DropTrailing, Pow10;
    var core := DropTrailing(d);
    TrailingValue(d);
    var k := |d| - |core|;
    AsReal(NatOf(core), Pow10(k), 0);
    ScaleNat(k);
    Regroup(NatOf(core) as real, Scale(k), Scale(e));
    ScaleAdd(k, e);
  }

  lemma NothingTimes(negative: bool, d: string, x: real)
    requires d == ""
    ensures Signed(negative, NatOf(d) as real * x) == 0.0
  {
    assert NatOf(d) as real == 0.0 && 0.0 * x == 0.0;
  }

  lemma NormalizeKeeps(n: Number)
    requires Grammar(n)
    ensures IsNormal(Normalize(n)) && NormalValue(Normalize(n)) == ValueOf(n)
  {
    hide Scale, PowerValue, PowerGrammar, ValueOf, DropLeading, DropTrailing, NatOf;
    var all := n.integer + n.fraction;
    var kept := DropLeading(all);
    var e := PowerValue(n.power) - |n.fraction|;
    DigitsForm(n, all, e);
    LeadingValue(all);
    if kept == "" {
      NothingTimes(n.negative, kept, Scale(e));
    } else {
      Positive(kept);
      TrailingValue(kept);
      CoreForm(kept, e);
      var core := DropTrailing(kept);
      assert core[0] == kept[0] && AllDigits(core);
      var m := Scientific(n.negative, core, e + (|kept| - |core|));
      assert IsNormal(m) && Normalize(n) == m;
    }
  }

  // ---- a normal number is read back from its spelling ----

  /** The syntax tree of a printed normal number. */
  function TreeOf(m: Normal): Number {
    match m
    case Zero => Number(false, "0", "", Plain)
    case Scientific(negative, digits, exponent) =>
      Number(negative, digits, "",
        if exponent == 0 then Plain
        else if exponent < 0 then Scaled('e', "-", ShowNat(-exponent))
        else Scaled('e', "", ShowNat(exponent)))
  }

  lemma PrintIsSpelling(m: Normal)
    requires IsNormal(m)
    ensures Grammar(TreeOf(m)) && Spell(TreeOf(m)) == Print(m)
  {
    hide ShowNat, SpellPower, PowerGrammar, ShowExponent;
    if m.Scientific? {
      SpelledExponent(m);
      assert "" + ShowExponent(m.exponent) == ShowExponent(m.exponent);
    } else {
      PrintedZero();
    }
  }

  lemma PrintedZero()
    ensures Grammar(TreeOf(Zero)) && Spell(TreeOf(Zero)) == "0"
  {}

  lemma SpelledExponent(m: Normal)
    requires m.Scientific?
    ensures PowerGrammar(TreeOf(m).power) && SpellPower(TreeOf(m).power) == ShowExponent(m.exponent)
  {
    if m.exponent > 0 { assert "" + ShowNat(m.exponent) == ShowNat(m.exponent); }
  }

  lemma PrintReadsBack(m: Normal)
    requires IsNormal(m)
    ensures Parse(Print(m)) == Charts.Some(TreeOf(m)) && Normalize(TreeOf(m)) == m
  {
    hide Parse, ShowNat, Spell;
    PrintIsSpelling(m);
    ParseOfSpell(TreeOf(m));
    if m.Scientific? {
      assert m.digits + "" == m.digits;
      assert DropLeading(m.digits) == m.digits && DropTrailing(m.digits) == m.digits;
    } else {
      assert "0" + "" == "0" && "0"[1..] == "";
    }
  }

  // ---- one spelling per value ----

  /** Digit strings without a leading zero are determined by their number. */
  lemma {:induction false} SameNat(a: string, b: string)
    requires AllDigits(a) && AllDigits(b) && NatOf(a) == NatOf(b)
    requires (a != "" ==> a[0] != '0') && (b != "" ==> b[0] != '0')
    ensures a == b
    decreases |a|
  {
    if a == "" {
      if b != "" { Positive(b); }
    } else if b == "" {
      Positive(a);
    } else {
      var c, d := a[..|a| - 1], b[..|b| - 1];
      assert NatOf(c) == NatOf(d) && a[|a| - 1] == b[|b| - 1];
      SameNat(c, d);
      assert a == c + [a[|a| - 1]] && b == d + [b[|b| - 1]];
    }
  }

  lemma ScaleNat(k: nat)
    ensures Scale(k) == Pow10(k) as real
  {}

  lemma MultipleOfTen(n: nat, k: nat)
    requires k > 0
    ensures n * Pow10(k) % 10 == 0
  {
    Distribute(n, Pow10(k - 1), 0, 0);
    assert n * Pow10(k) == 10 * (n * Pow10(k - 1));
  }

  /** A coefficient that is no multiple of ten fixes its power of ten. */
  lemma SameScale(m: nat, n: nat, e: int, f: int)
    requires m as real * Scale(e) == n as real * Scale(f) && m % 10 != 0 && e <= f
    ensures e == f && m == n
  {
    hide Scale;
    ScaleAdd(f - e, e);
    ScaleNat(f - e);
    Regroup(n as real, Scale(f - e), Scale(e));
    CancelRight(m as real, n as real * Scale(f - e), Scale(e));
    AsReal(n, Pow10(f - e), 0);
    assert m == n * Pow10(f - e);
    if e < f { MultipleOfTen(n, f - e); }
  }

  lemma CancelRight(x: real, y: real, s: real)
    requires x * s == y * s && s > 0.0
    ensures x == y
  {
    assert x * s / s == x && y * s / s == y;
  }

  lemma LastDigit(d: string)
    requires AllDigits(d) && d != "" && d[|d| - 1] != '0'
    ensures NatOf(d) % 10 != 0
  {}

  lemma NormalSign(m: Normal)
    requires IsNormal(m)
    ensures m.Zero? <==> NormalValue(m) == 0.0
    ensures m.Scientific? ==> (m.negative <==> NormalValue(m) < 0.0)
  {
    if m.Scientific? {
      Positive(m.digits);
      Product(NatOf(m.digits) as real, Scale(m.exponent));
    }
  }

  lemma Product(x: real, y: real)
    requires x > 0.0 && y > 0.0
    ensures x * y > 0.0
  {}

  lemma NormalIsUnique(m: Normal, n: Normal)
    requires IsNormal(m) && IsNormal(n) && NormalValue(m) == NormalValue(n)
    ensures m == n
  {
    hide Scale, NatOf;
    NormalSign(m);
    NormalSign(n);
    if m.Scientific? {
      LastDigit(m.digits);
      LastDigit(n.digits);
      if m.exponent <= n.exponent { SameScale(NatOf(m.digits), NatOf(n.digits), m.exponent, n.exponent); }
      else { SameScale(NatOf(n.digits), NatOf(m.digits), n.exponent, m.exponent); }
      SameNat(m.digits, n.digits);
    }
  }

  // ---- the promises of NumberValue ----

  /** A string is accepted exactly when it is a JSON number; its canonical spelling is a JSON number
      of the same value, and is its own canonical spelling. */
  lemma CanonicalKeepsValue(s: string)
    ensures Canonical(s).Some? <==> IsJsonNumber(s)
    ensures IsJsonNumber(s) ==>
      var r := Canonical(s).value;
      IsJsonNumber(r) && Value(r) == Value(s) && Canonical(r) == Charts.Some(r)
  {
    ParseIsGrammar(s);
    if IsJsonNumber(s) {
      ParseSound(s);
      var m := Normalize(Parse(s).value);
      NormalizeKeeps(Parse(s).value);
      PrintReadsBack(m);
      PrintIsSpelling(m);
      NormalizeKeeps(TreeOf(m));
    }
  }

  /** Two numbers have the same canonical spelling exactly when they are the same rational. */
  lemma EqualSpellingsAreEqualValues(s: string, t: string)
    requires IsJsonNumber(s) && IsJsonNumber(t)
    ensures Canonical(s) == Canonical(t) <==> Value(s) == Value(t)
  {
    CanonicalKeepsValue(s);
    CanonicalKeepsValue(t);
    ParseIsGrammar(s);
    ParseIsGrammar(t);
    if Value(s) == Value(t) {
      ParseSound(s);
      ParseSound(t);
      NormalizeKeeps(Parse(s).value);
      NormalizeKeeps(Parse(t).value);
      NormalIsUnique(Normalize(Parse(s).value), Normalize(Parse(t).value));
    }
  }

  // ---- AsInt64 ----

  predicate InInt64(n: int) { -0x8000_0000_0000_0000 <= n < 0x8000_0000_0000_0000 }

  /** big.Int's SetString in base ten. */
  function ParseInt(s: string): Charts.Option<int> {
    var d := if s != "" && (s[0] == '-' || s[0] == '+') then s[1..] else s;
    if d == "" || Digits(d) != d then Charts.None
    else
      DigitsAre(d);
      Charts.Some(WithSign(s[0] == '-', NatOf(d)))
  }

  /** strings.Cut at the first "e". */
  function Cut(s: string): (string, Charts.Option<string>) {
    if s == "" then ("", Charts.None)
    else if s[0] == 'e' then ("", Charts.Some(s[1..]))
    else
      var (before, after) := Cut(s[1..]);
      ([s[0]] + before, after)
  }

  /** AsInt64 of a number's text (value.go:199-221). */
  function AsInt64(text: string): Charts.Option<int> {
    var (coefficientText, exponentText) := Cut(text);
    match ParseInt(coefficientText)
    case None => Charts.None
    case Some(coefficient) =>
      match exponentText
      case None => if InInt64(coefficient) then Charts.Some(coefficient) else Charts.None
      case Some(t) =>
        match ParseInt(t)
        case None => Charts.None
        case Some(exponent) =>
          if exponent < 0 || !InInt64(exponent) || exponent > 19 then Charts.None
          else
            var n := coefficient * Pow10(exponent);
            if InInt64(n) then Charts.Some(n) else Charts.None
  }

  lemma {:induction false} CutAt(a: string, rest: string)
    requires forall i :: 0 <= i < |a| ==> a[i] != 'e'
    ensures Cut(a) == (a, Charts.None) && Cut(a + ("e" + rest)) == (a, Charts.Some(rest))
    decreases |a|
  {
    var s := a + ("e" + rest);
    if a == "" {
      assert s[1..] == rest;
    } else {
      assert s[1..] == a[1..] + ("e" + rest);
      CutAt(a[1..], rest);
      assert a == [a[0]] + a[1..];
    }
  }

  lemma ParseIntOf(negative: bool, d: string)
    requires AllDigits(d) && d != ""
    ensures ParseInt(SpellSign(negative) + d) == Charts.Some(WithSign(negative, NatOf(d)))
  {
    hide NatOf, DigitCount;
    DigitsOf(d, "");
    assert d + "" == d && "" + d == d;
    var s := SpellSign(negative) + d;
    assert IsDigit(d[0]);
    if negative {
      assert s[0] == '-' && s[1..] == d;
    } else {
      assert s == d && s[0] != '-' && s[0] != '+';
      assert ParseInt(s) == Charts.Some(WithSign(false, NatOf(d)));
    }
  }

  lemma ParseShownInt(n: int)
    ensures ParseInt(ShowInt(n)) == Charts.Some(n)
  {
    if n < 0 { ParseIntOf(true, ShowNat(-n)); }
    else { ParseIntOf(false, ShowNat(n)); assert SpellSign(false) + ShowNat(n) == ShowNat(n); }
  }

  function Coefficient(m: Normal): int
    requires IsNormal(m)
  {
    if m.Zero? then 0 else WithSign(m.negative, NatOf(m.digits))
  }

  /** What AsInt64 computes on the canonical text of m. */
  lemma AsInt64Of(m: Normal)
    requires IsNormal(m)
    ensures AsInt64(Print(m)) ==
      if m.Zero? then Charts.Some(0)
      else if m.exponent < 0 || m.exponent > 19 || !InInt64(Coefficient(m) * Pow10(m.exponent)) then Charts.None
      else Charts.Some(Coefficient(m) * Pow10(m.exponent))
  {
    hide NatOf, ShowInt, Cut, ParseInt, Pow10;
    if m.Zero? {
      ZeroText();
    } else {
      var a := SpellSign(m.negative) + m.digits;
      ParseIntOf(m.negative, m.digits);
      CutAt(a, ShowInt(m.exponent));
      ParseShownInt(m.exponent);
      assert Print(m) == a + ShowExponent(m.exponent);
      if m.exponent == 0 { assert a + "" == a; Unscaled(Coefficient(m)); }
    }
  }

  lemma Unscaled(n: int)
    ensures n * Pow10(0) == n
  {}

  lemma ZeroText()
    ensures AsInt64("0") == Charts.Some(0)
  {
    CutAt("0", "");
    ParseIntOf(false, "0");
    assert SpellSign(false) + "0" == "0" && "0"[..0] == "";
  }

  lemma SignedIsCoefficient(m: Normal)
    requires IsNormal(m) && m.Scientific? && m.exponent >= 0
    ensures NormalValue(m) == (Coefficient(m) * Pow10(m.exponent)) as real
  {
    var c, p := NatOf(m.digits), Pow10(m.exponent);
    assert (c * p) as real == c as real * p as real;
    assert WithSign(m.negative, c) * p == WithSign(m.negative, c * p);
  }

  /** A number with a negative normal exponent is not an integer. */
  lemma NotAnInteger(m: Normal, n: int)
    requires IsNormal(m) && m.Scientific? && m.exponent < 0
    ensures NormalValue(m) != n as real
  {
    hide Scale, NatOf;
    if NormalValue(m) == n as real {
      var k := if n < 0 then -n else n;
      LastDigit(m.digits);
      ScaleZero();
      assert NatOf(m.digits) as real * Scale(m.exponent) == k as real * Scale(0) by { NormalSign(m); }
      SameScale(NatOf(m.digits), k, m.exponent, 0);
    }
  }

  lemma Huge(m: Normal)
    requires IsNormal(m) && m.Scientific? && m.exponent > 19
    ensures !InInt64(Coefficient(m) * Pow10(m.exponent))
  {
    Positive(m.digits);
    var p := Pow10(m.exponent);
    BigPower(m.exponent);
    AtLeast(NatOf(m.digits), p);
    assert Coefficient(m) * p == WithSign(m.negative, NatOf(m.digits) * p);
  }

  lemma AtLeast(c: nat, p: nat)
    requires c > 0
    ensures c * p >= p
  {}

  lemma {:induction false} BigPower(k: nat)
    requires k >= 20
    ensures Pow10(k) > 0x8000_0000_0000_0000
    decreases k
  {
    if k == 20 {
      assert Pow10(5) == 100000;
      assert Pow10(10) == 10000000000;
      assert Pow10(15) == 1000000000000000;
      assert Pow10(20) == 100000000000000000000;
    } else {
      BigPower(k - 1);
    }
  }

  lemma ZeroValue()
    ensures NormalValue(Zero) == 0.0
  {}

  /** AsInt64 returns n exactly when the number is the integer n and n fits 64 bits. */
  lemma AsInt64IsExact(s: string, n: int)
    requires IsJsonNumber(s)
    ensures Canonical(s).Some?
    ensures AsInt64(Canonical(s).value) == Charts.Some(n) <==> Value(s) == n as real && InInt64(n)
  {
    hide AsInt64, Print, ValueOf, Normalize, NormalValue, Parse, Spell, Grammar, NatOf;
    ParseIsGrammar(s);
    ParseSound(s);
    var m := Normalize(Parse(s).value);
    NormalizeKeeps(Parse(s).value);
    AsInt64Of(m);
    if m.Zero? { ZeroValue(); }
    if m.Scientific? {
      if m.exponent < 0 {
        NotAnInteger(m, n);
      } else {
        SignedIsCoefficient(m);
        if m.exponent > 19 { Huge(m); }
      }
    }
  }

  /** The syntax tree of an integer's spelling. */
  function IntegerTree(n: int): Number { Number(n < 0, ShowNat(if n < 0 then -n else n), "", Plain) }

  lemma IntegerSpelling(n: int)
    ensures Grammar(IntegerTree(n)) && Spell(IntegerTree(n)) == ShowInt(n)
  {
    hide ShowNat;
    var d := ShowNat(if n < 0 then -n else n);
    LeadingZeroOnlyZero(if n < 0 then -n else n);
    assert d + ("" + "") == d && "" + d == d;
  }

  lemma IntegerValue(n: int)
    requires Grammar(IntegerTree(n))
    ensures ValueOf(IntegerTree(n)) == n as real
  {
    hide ShowNat;
    ScaleZero();
    assert NatOf("") == 0;
  }

  /** Int64Value followed by AsInt64 gives the integer back. */
  lemma Int64RoundTrip(n: int)
    requires InInt64(n)
    ensures Canonical(ShowInt(n)).Some? && AsInt64(Canonical(ShowInt(n)).value) == Charts.Some(n)
  {
    hide ShowNat, Parse, Spell, Grammar, ValueOf, AsInt64, ShowInt;
    IntegerSpelling(n);
    ParseOfSpell(IntegerTree(n));
    IntegerValue(n);
    AsInt64IsExact(ShowInt(n), n);
  }

  lemma LeadingZeroOnlyZero(k: nat)
    ensures ShowNat(k)[0] == '0' ==> |ShowNat(k)| == 1
  {}
}
