/**
 The order in which a new order reserves stock (JavaScript's `<` on lower-cased uuid
 strings) is the order in which a transition settles it (the database's order of the
 128-bit values), however the client spelled the ids.
 */
module UuidOrder {

  predicate IsHex(c: char) {
    '0' <= c <= '9' || 'a' <= c <= 'f' || 'A' <= c <= 'F'
  }

  /** One character of `toLowerCase`, for the characters a uuid has. */
  function Lower(c: char): char {
    if 'A' <= c <= 'F' then c - 'A' + 'a' else c
  }

  function LowerAll(s: string): string {
    seq(|s|, i requires 0 <= i < |s| => Lower(s[i]))
  }

  function Digit(c: char): nat
    requires IsHex(c)
  {
    if c <= '9' then (c - '0') as nat
    else if c <= 'F' then (c - 'A') as nat + 10
    else (c - 'a') as nat + 10
  }

  /** Hexadecimal digits with dashes at the places of `shape`. */
  predicate Shaped(s: string, shape: seq<bool>) {
    |s| == |shape| && forall i :: 0 <= i < |s| ==> if shape[i] then s[i] == '-' else IsHex(s[i])
  }

  const GROUPS: seq<nat> := [8, 4, 4, 4, 12]

  function ShapeOf(groups: seq<nat>): seq<bool> {
    if groups == [] then []
    else seq(groups[0], _ => false) + (if |groups| == 1 then [] else [true] + ShapeOf(groups[1..]))
  }

  /** 8-4-4-4-12. */
  predicate IsUuid(s: string) {
    Shaped(s, ShapeOf(GROUPS))
  }

  function Pow16(n: nat): nat {
    if n == 0 then 1 else 16 * Pow16(n - 1)
  }

  function HexCount(shape: seq<bool>): nat {
    if shape == [] then 0 else (if shape[0] then 0 else 1) + HexCount(shape[1..])
  }

  /** The number a shaped string spells, dashes skipped. */
  function Value(s: string, shape: seq<bool>): nat
    requires Shaped(s, shape)
  {
    if s == [] then 0
    else if shape[0] then Value(s[1..], shape[1..])
    else Digit(s[0]) * Pow16(HexCount(shape[1..])) + Value(s[1..], shape[1..])
  }

  /** JavaScript's `a < b` on strings: the first differing code unit decides. */
  predicate JsLess(a: string, b: string) {
    if b == [] then false
    else if a == [] then true
    else a[0] < b[0] || (a[0] == b[0] && JsLess(a[1..], b[1..]))
  }

  /** A digit more at the front keeps the number below the next power. */
  lemma {:induction false} DigitBound(d: nat, p: nat, x: nat)
    requires d <= 15 && x < p
    ensures d * p + x < 16 * p
  {
    assert (15 - d) * p >= 0;
  }

  lemma {:induction false} ValueBound(s: string, shape: seq<bool>)
    requires Shaped(s, shape)
    ensures Value(s, shape) < Pow16(HexCount(shape))
    decreases |s|
  {
    if s != [] {
      ValueBound(s[1..], shape[1..]);
      if !shape[0] {
        DigitBound(Digit(s[0]), Pow16(HexCount(shape[1..])), Value(s[1..], shape[1..]));
      }
    }
  }

  lemma {:induction false} LeadingDigit(d: nat, e: nat, p: nat, x: nat, y: nat)
    requires x < p && y < p
    ensures d * p + x < e * p + y <==> d < e || (d == e && x < y)
    ensures d * p + x == e * p + y <==> d == e && x == y
  {
    if d < e {
      assert (d + 1) * p <= e * p;
    } else if e < d {
      assert (e + 1) * p <= d * p;
    }
  }

  lemma {:induction false} DigitOrder(c: char, d: char)
    requires IsHex(c) && IsHex(d)
    ensures Lower(c) < Lower(d) <==> Digit(c) < Digit(d)
    ensures Lower(c) == Lower(d) <==> Digit(c) == Digit(d)
  {}

  lemma {:induction false} LowerTail(s: string)
    requires s != []
    ensures LowerAll(s)[1..] == LowerAll(s[1..]) && LowerAll(s) == [Lower(s[0])] + LowerAll(s[1..])
  {}

  lemma {:induction false} ConsEqual(c: char, d: char, s: string, t: string)
    ensures [c] + s == [d] + t <==> c == d && s == t
  {
    if [c] + s == [d] + t {
      assert ([c] + s)[0] == ([d] + t)[0] && ([c] + s)[1..] == ([d] + t)[1..];
    }
  }

  /** Lower-cased strings of one shape compare as the numbers they spell. */
  lemma {:induction false} ShapedOrder(a: string, b: string, shape: seq<bool>)
    requires Shaped(a, shape) && Shaped(b, shape)
    ensures JsLess(LowerAll(a), LowerAll(b)) <==> Value(a, shape) < Value(b, shape)
    ensures LowerAll(a) == LowerAll(b) <==> Value(a, shape) == Value(b, shape)
    decreases |a|
  {
    if a != [] {
      LowerTail(a);
      LowerTail(b);
      ConsEqual(Lower(a[0]), Lower(b[0]), LowerAll(a[1..]), LowerAll(b[1..]));
      ShapedOrder(a[1..], b[1..], shape[1..]);
      if !shape[0] {
        DigitOrder(a[0], b[0]);
        ValueBound(a[1..], shape[1..]);
        ValueBound(b[1..], shape[1..]);
        LeadingDigit(Digit(a[0]), Digit(b[0]), Pow16(HexCount(shape[1..])),
                     Value(a[1..], shape[1..]), Value(b[1..], shape[1..]));
      }
    }
  }

  /** On uuids, whatever their case: string order after lower-casing is numeric order, and equality agrees too. */
  lemma {:induction false} UuidOrderAgrees(a: string, b: string)
    requires IsUuid(a) && IsUuid(b)
    ensures JsLess(LowerAll(a), LowerAll(b)) <==> Value(a, ShapeOf(GROUPS)) < Value(b, ShapeOf(GROUPS))
    ensures LowerAll(a) == LowerAll(b) <==> Value(a, ShapeOf(GROUPS)) == Value(b, ShapeOf(GROUPS))
  {
    ShapedOrder(a, b, ShapeOf(GROUPS));
  }
}
