/**
 Amounts in whole minor units (hundredths), read from and written as decimal strings.
 Integers are unbounded here, as `bigint` is.
 */
module Money {
  import opened Wrappers

  predicate IsDigit(c: char) { '0' <= c <= '9' }

  predicate Digits(s: string) { forall c :: c in s ==> IsDigit(c) }

  predicate Zeros(s: string) { forall c :: c in s ==> c == '0' }

  /** `x` times ten to the `n`. */
  function Scale(x: int, n: nat): int {
    if n == 0 then x else 10 * Scale(x, n - 1)
  }

  function Pow10(n: nat): int { Scale(1, n) }

  function DigitOf(c: char): (d: nat)
    requires IsDigit(c)
    ensures d <= 9 && (d == 0 <==> c == '0')
  {
    c as int - '0' as int
  }

  /** The number a digit string spells. */
  function Value(s: string): nat
    requires Digits(s)
  {
    if s == "" then 0 else Value(s[..|s| - 1]) * 10 + DigitOf(s[|s| - 1])
  }

  function Print(n: nat): (s: string)
    ensures Digits(s) && s != ""
  {
    if n < 10 then [('0' as nat + n) as char] else Print(n / 10) + [('0' as nat + n % 10) as char]
  }

  // ---- Numerals ----

  /** A decimal numeral: sign, whole digits and, after a point, fraction digits. */
  datatype Numeral = Numeral(negative: bool, whole: string, frac: Option<string>) {
    predicate Valid() {
      && whole != "" && Digits(whole)
      && (frac.Some? ==> frac.value != "" && Digits(frac.value))
    }

    function Frac(): string { frac.GetOr("") }

    function Body(): string {
      if frac.Some? then whole + ("." + frac.value) else whole
    }

    function Text(): string {
      if negative then "-" + Body() else Body()
    }
  }

  /** The length of the longest prefix of digits. */
  function DigitRun(s: string): (n: nat)
    ensures n <= |s| && Digits(s[..n]) && (n < |s| ==> !IsDigit(s[n]))
  {
    if s == "" || !IsDigit(s[0]) then 0
    else
      var n := DigitRun(s[1..]);
      assert s[..n + 1] == [s[0]] + s[1..][..n];
      n + 1
  }

  function SplitBody(negative: bool, body: string): Option<Numeral> {
    var n := DigitRun(body);
    if n == 0 then None
    else if n == |body| then Some(Numeral(negative, body, None))
    else if body[n] == '.' && n + 1 < |body| && DigitRun(body[n + 1..]) == |body| - n - 1
    then Some(Numeral(negative, body[..n], Some(body[n + 1..])))
    else None
  }

  function Split(s: string): Option<Numeral> {
    if s != "" && s[0] == '-' then SplitBody(true, s[1..]) else SplitBody(false, s)
  }

  // ---- fromDb, parse and toString ----

  /** `(frac + '00').slice(0, 2)`. */
  function Hundredths(frac: string): (r: string)
    ensures Digits(frac) ==> Digits(r)
  {
    (frac + "00")[..2]
  }

  function Signed(negative: bool, magnitude: int): int { if negative then -magnitude else magnitude }

  function Magnitude(n: Numeral): nat
    requires n.Valid()
  {
    Value(n.whole) * 100 + Value(Hundredths(n.Frac()))
  }

  /** `^(-?)(\d+)(?:\.(\d{1,2})0*)?$`: beyond two fraction digits only zeros. */
  function AsDb(n: Numeral): Option<int>
    requires n.Valid()
  {
    if |n.Frac()| > 2 && !Zeros(n.Frac()[2..]) then None else Some(Signed(n.negative, Magnitude(n)))
  }

  /** `^\d{1,16}(\.\d{1,2})?$`, then as from the database. */
  function AsAmount(n: Numeral): Option<int>
    requires n.Valid()
  {
    if n.negative || |n.whole| > 16 || |n.Frac()| > 2 then None else AsDb(n)
  }

  function FromDb(s: string): Option<int> {
    SplitSound(s);
    if Split(s).None? then None else AsDb(Split(s).value)
  }

  function Parse(s: string): Option<int> {
    SplitSound(s);
    if Split(s).None? then None else AsAmount(Split(s).value)
  }

  function PadTwo(s: string): string {
    if |s| < 2 then seq(2 - |s|, _ => '0') + s else s
  }

  function ToString(minor: int): string {
    var abs := if minor < 0 then -minor else minor;
    (if minor < 0 then "-" else "") + Print(abs / 100) + "." + PadTwo(Print(abs % 100))
  }

  // ---- Splitting and its inverse ----

  lemma {:induction false} SplitBodySound(negative: bool, body: string)
    requires SplitBody(negative, body).Some?
    ensures var n := SplitBody(negative, body).value; n.negative == negative && n.Valid() && n.Body() == body
  {
    var n := DigitRun(body);
    assert body[..|body|] == body;
    if n < |body| {
      var rest := body[n + 1..];
      assert rest[..|rest|] == rest;
      assert body == body[..n] + ([body[n]] + rest);
    }
  }

  lemma {:induction false} SplitSound(s: string)
    ensures Split(s).Some? ==> Split(s).value.Valid() && Split(s).value.Text() == s
  {
    if Split(s).Some? {
      if s != "" && s[0] == '-' {
        SplitBodySound(true, s[1..]);
        assert s == "-" + s[1..];
      } else {
        SplitBodySound(false, s);
      }
    }
  }

  lemma {:induction false} DigitRunOf(digits: string, rest: string)
    requires Digits(digits) && (rest != "" ==> !IsDigit(rest[0]))
    ensures DigitRun(digits + rest) == |digits|
  {
    if digits == "" {
      assert digits + rest == rest;
    } else {
      assert (digits + rest)[1..] == digits[1..] + rest;
      DigitRunOf(digits[1..], rest);
    }
  }

  lemma {:induction false} SplitBodyText(n: Numeral)
    requires n.Valid()
    ensures SplitBody(n.negative, n.Body()) == Some(n)
  {
    var body := n.Body();
    if n.frac.Some? {
      var f := n.frac.value;
      DigitRunOf(n.whole, "." + f);
      assert body[..|n.whole|] == n.whole;
      assert body[|n.whole| + 1..] == f;
      DigitRunOf(f, "");
      assert f + "" == f;
    } else {
      DigitRunOf(n.whole, "");
      assert n.whole + "" == n.whole;
    }
  }

  /** Every numeral is read back as itself. */
  lemma {:induction false} SplitText(n: Numeral)
    requires n.Valid()
    ensures Split(n.Text()) == Some(n)
  {
    SplitBodyText(n);
    if n.negative {
      assert n.Text()[1..] == n.Body();
    } else {
      assert n.Body()[0] == n.whole[0] && IsDigit(n.whole[0]);
    }
  }

  // ---- Values of digit strings ----

  lemma {:induction false} ValueSnoc(s: string, c: char)
    requires Digits(s) && IsDigit(c)
    ensures Digits(s + [c]) && Value(s + [c]) == Value(s) * 10 + DigitOf(c)
  {
    assert (s + [c])[..|s|] == s;
  }

  lemma {:induction false} ValueConcat(a: string, b: string)
    requires Digits(a) && Digits(b)
    ensures Digits(a + b) && Value(a + b) == Scale(Value(a), |b|) + Value(b)
  {
    if b == "" {
      assert a + b == a;
    } else {
      var b' := b[..|b| - 1];
      ValueConcat(a, b');
      ValueSnoc(a + b', b[|b| - 1]);
      ValueSnoc(b', b[|b| - 1]);
      assert a + b == a + b' + [b[|b| - 1]] && b == b' + [b[|b| - 1]];
    }
  }

  lemma {:induction false} ValueBound(s: string)
    requires Digits(s)
    ensures Value(s) < Pow10(|s|)
  {
    if s != "" {
      ValueBound(s[..|s| - 1]);
      assert IsDigit(s[|s| - 1]);
    }
  }

  lemma {:induction false} ValueZero(s: string)
    requires Digits(s)
    ensures Value(s) == 0 <==> Zeros(s)
  {
    if s != "" {
      var front, last := s[..|s| - 1], s[|s| - 1];
      ValueZero(front);
      assert s == front + [last];
      assert last in s;
      assert forall c :: c in s <==> c in front || c == last;
    }
  }

  lemma {:induction false} PrintValue(n: nat)
    ensures Value(Print(n)) == n
  {
    if n >= 10 {
      PrintValue(n / 10);
      assert Print(n)[..|Print(n)| - 1] == Print(n / 10);
    }
  }

  lemma {:induction false} PrintLength(n: nat, k: nat)
    requires k >= 1
    ensures |Print(n)| <= k <==> n < Pow10(k)
  {
    if k == 1 {
    } else if n >= 10 {
      PrintLength(n / 10, k - 1);
    } else {
      PowPositive(k - 1);
    }
  }

  lemma {:induction false} PowPositive(n: nat)
    ensures Pow10(n) >= 1
  {
    if n > 0 { PowPositive(n - 1); }
  }

  lemma {:induction false} PadTwoValue(n: nat)
    requires n < 100
    ensures var s := PadTwo(Print(n)); |s| == 2 && Digits(s) && Value(s) == n
  {
    PrintValue(n);
    PrintLength(n, 2);
    assert Pow10(2) == 100;
    var s := Print(n);
    if |s| < 2 {
      assert PadTwo(s) == "0" + s;
      ValueConcat("0", s);
      assert Value("0") == 0;
    }
  }

  // ---- Main results ----

  function Canonical(minor: int): Numeral {
    var abs := if minor < 0 then -minor else minor;
    Numeral(minor < 0, Print(abs / 100), Some(PadTwo(Print(abs % 100))))
  }

  lemma {:induction false} CanonicalText(minor: int)
    ensures Canonical(minor).Valid() && Canonical(minor).Text() == ToString(minor) && |Canonical(minor).Frac()| == 2
    ensures Magnitude(Canonical(minor)) == if minor < 0 then -minor else minor
  {
    var abs := if minor < 0 then -minor else minor;
    PadTwoValue(abs % 100);
    PrintValue(abs / 100);
    var frac := PadTwo(Print(abs % 100));
    assert Hundredths(frac) == frac;
  }

  /** Printing and reading back is the identity, on every amount. */
  lemma {:induction false} RoundTrip(minor: int)
    ensures FromDb(ToString(minor)) == Some(minor)
  {
    CanonicalText(minor);
    SplitText(Canonical(minor));
  }

  lemma {:induction false} CanonicalAmount(minor: int)
    requires Canonical(minor).Valid() && |Canonical(minor).Frac()| == 2
    requires Magnitude(Canonical(minor)) == if minor < 0 then -minor else minor
    ensures AsAmount(Canonical(minor)) == (if 0 <= minor < Pow10(18) then Some(minor) else None)
  {
    var abs := if minor < 0 then -minor else minor;
    PrintLength(abs / 100, 16);
    assert Pow10(18) == 100 * Pow10(16);
  }

  /** What an API amount can be: its own print is accepted again exactly on [0, 10^18). */
  lemma {:induction false} ApiRoundTrip(minor: int)
    ensures Parse(ToString(minor)) == Some(minor) <==> 0 <= minor < Pow10(18)
  {
    CanonicalText(minor);
    SplitText(Canonical(minor));
    CanonicalAmount(minor);
  }

  lemma {:induction false} ParseRange(s: string)
    requires Parse(s).Some?
    ensures 0 <= Parse(s).value < Pow10(18)
    ensures Parse(ToString(Parse(s).value)) == Parse(s)
  {
    SplitSound(s);
    var n := Split(s).value;
    ValueBound(n.whole);
    ValueBound(Hundredths(n.Frac()));
    PowMonotone(|n.whole|, 16);
    assert Pow10(2) == 100 && Pow10(18) == 100 * Pow10(16);
    ApiRoundTrip(Parse(s).value);
  }

  lemma {:induction false} PowMonotone(a: nat, b: nat)
    requires a <= b
    ensures Pow10(a) <= Pow10(b)
  {
    if a < b {
      PowMonotone(a, b - 1);
      PowPositive(b - 1);
    }
  }

  /** `m` hundredths is exactly what the numeral says: m / 100 = whole.frac. */
  predicate Denotes(n: Numeral, m: int)
    requires n.Valid()
  {
    ValueConcat(n.whole, n.Frac());
    Scale(Signed(n.negative, m), |n.Frac()|) == 100 * Value(n.whole + n.Frac())
  }

  /** A scaled number plus a remainder below the scale is another scaled number only without remainder. */
  lemma {:induction false} Remainder(a: int, b: int, n: nat, r: nat)
    requires r < Pow10(n)
    ensures Scale(a, n) == Scale(b, n) + r <==> a == b && r == 0
  {
    if a > b {
      ScaleGrows(b, a, n);
    } else if a < b {
      ScaleGrows(a, b, n);
    }
  }

  lemma {:induction false} ScaleGrows(a: int, b: int, n: nat)
    requires a < b
    ensures Scale(a, n) + Pow10(n) <= Scale(b, n)
  {
    if n > 0 { ScaleGrows(a, b, n - 1); }
  }

  /** The digits of a numeral: its hundredths, scaled, and what comes beyond two fraction digits. */
  lemma {:induction false} SplitHundredths(whole: string, frac: string)
    requires Digits(whole) && Digits(frac) && |frac| >= 2
    ensures Digits(whole + frac) && Digits(frac[2..]) && Digits(frac[..2])
    ensures Value(whole + frac) ==
              Scale(Value(whole) * 100 + Value(frac[..2]), |frac| - 2) + Value(frac[2..])
  {
    assert whole + frac == (whole + frac[..2]) + frac[2..];
    ValueConcat(whole, frac[..2]);
    ValueConcat(whole + frac[..2], frac[2..]);
    assert Scale(Value(whole), 2) == 10 * Scale(Value(whole), 1);
  }

  lemma {:induction false} LongFraction(n: Numeral, m: int)
    requires n.Valid() && |n.Frac()| >= 2
    ensures Denotes(n, m) <==> Signed(n.negative, m) == Magnitude(n) && Zeros(n.Frac()[2..])
  {
    var f := n.Frac();
    var m', k := Signed(n.negative, m), |f| - 2;
    assert Hundredths(f) == f[..2];
    SplitHundredths(n.whole, f);
    ValueBound(f[2..]);
    ValueZero(f[2..]);
    Remainder(m', Magnitude(n), k, Value(f[2..]));
    assert Scale(m', k + 2) == 10 * Scale(m', k + 1);
  }

  lemma {:induction false} ShortFraction(n: Numeral, m: int)
    requires n.Valid() && |n.Frac()| < 2
    ensures Denotes(n, m) <==> Signed(n.negative, m) == Magnitude(n)
  {
    var f := n.Frac();
    ValueConcat(n.whole, f);
    assert Scale(Signed(n.negative, m), 1) == 10 * Scale(Signed(n.negative, m), 0);
    assert Scale(Value(n.whole), 1) == 10 * Scale(Value(n.whole), 0);
    if f == "" {
      assert Hundredths(f) == "00";
      assert Value("00") == 0;
    } else {
      assert Hundredths(f) == f + "0";
      assert f + "0" == [f[0], '0'];
      assert Value(f + "0") == Value(f) * 10 by { assert (f + "0")[..1] == f; }
    }
  }

  lemma {:induction false} AsDbExact(n: Numeral, m: int)
    requires n.Valid()
    ensures AsDb(n) == Some(m) <==> Denotes(n, m)
  {
    if |n.Frac()| >= 2 {
      LongFraction(n, m);
      assert |n.Frac()| == 2 ==> n.Frac()[2..] == "";
    } else {
      ShortFraction(n, m);
    }
  }

  /**
   A database numeral is accepted exactly when it denotes a whole number of hundredths,
   however many zeros trail, and then with exactly the value it denotes.
   */
  lemma {:induction false} ExactValue(n: Numeral, m: int)
    requires n.Valid()
    ensures FromDb(n.Text()) == Some(m) <==> Denotes(n, m)
  {
    SplitText(n);
    AsDbExact(n, m);
  }

  /** Nothing that is not a numeral is accepted. */
  lemma {:induction false} OnlyNumerals(s: string)
    requires FromDb(s).Some?
    ensures exists n: Numeral :: n.Valid() && n.Text() == s && Denotes(n, FromDb(s).value)
  {
    SplitSound(s);
    AsDbExact(Split(s).value, FromDb(s).value);
  }

  /** An amount as the API takes it: no sign, up to 16 whole digits, at most two decimals. */
  predicate IsAmount(n: Numeral) {
    && n.Valid() && !n.negative && |n.whole| <= 16
    && (n.frac.Some? ==> |n.frac.value| <= 2)
  }

  /** Exactly such numerals are amounts, and each is the amount it denotes. */
  lemma {:induction false} ParseAccepts(n: Numeral, m: int)
    requires n.Valid()
    ensures Parse(n.Text()) == Some(m) <==> IsAmount(n) && Denotes(n, m)
  {
    SplitText(n);
    AsDbExact(n, m);
  }

  lemma {:induction false} OnlyAmounts(s: string)
    requires Parse(s).Some?
    ensures exists n: Numeral :: n.Valid() && n.Text() == s && IsAmount(n)
  {
    SplitSound(s);
  }
}
