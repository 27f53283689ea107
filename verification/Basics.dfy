/** Bytes, machine integers, order and hex. */
module Basics {
  // The order is the one SQLite's BINARY collation and Rust slices give byte strings.

  newtype byte = x: int | 0 <= x < 256

  type Bytes = seq<byte>

  /** An identifier column, held as the bytes of its text. */
  type Ident = Bytes

  const TWO_63 := 0x8000_0000_0000_0000
  const TWO_64 := 0x1_0000_0000_0000_0000

  type u64 = x: int | 0 <= x < TWO_64

  datatype Option<+T> = None | Some(value: T)

  /** Lexicographic order on bytes; a proper prefix comes first. */
  predicate Leq(a: Bytes, b: Bytes)
    decreases |a|
  {
    a == [] || (b != [] && (a[0] < b[0] || (a[0] == b[0] && Leq(a[1..], b[1..]))))
  }

  lemma {:induction false} LeqReflexive(a: Bytes)
    ensures Leq(a, a)
  {
    if a != [] {
      LeqReflexive(a[1..]);
    }
  }

  lemma {:induction false} LeqTotal(a: Bytes, b: Bytes)
    ensures Leq(a, b) || Leq(b, a)
  {
    if a != [] && b != [] {
      LeqTotal(a[1..], b[1..]);
    }
  }

  lemma {:induction false} LeqAntisymmetric(a: Bytes, b: Bytes)
    requires Leq(a, b) && Leq(b, a)
    ensures a == b
  {
    if a != [] && b != [] {
      LeqAntisymmetric(a[1..], b[1..]);
      assert a == [a[0]] + a[1..] && b == [b[0]] + b[1..];
    }
  }

  lemma {:induction false} LeqTransitive(a: Bytes, b: Bytes, c: Bytes)
    requires Leq(a, b) && Leq(b, c)
    ensures Leq(a, c)
  {
    if a != [] && b[0] == a[0] && c[0] == b[0] {
      LeqTransitive(a[1..], b[1..], c[1..]);
    }
  }

  /** The same order on text, by code point, which is also the order of its UTF-8 bytes. */
  predicate TextLeq(a: string, b: string)
    decreases |a|
  {
    a == "" || (b != "" && (a[0] < b[0] || (a[0] == b[0] && TextLeq(a[1..], b[1..]))))
  }

  lemma {:induction false} TextLeqTotal(a: string, b: string)
    ensures TextLeq(a, b) || TextLeq(b, a)
    decreases |a|
  {
    if a != "" && b != "" {
      TextLeqTotal(a[1..], b[1..]);
    }
  }

  lemma {:induction false} TextLeqTransitive(a: string, b: string, c: string)
    requires TextLeq(a, b) && TextLeq(b, c)
    ensures TextLeq(a, c)
    decreases |a|
  {
    if a != "" && b[0] == a[0] && c[0] == b[0] {
      TextLeqTransitive(a[1..], b[1..], c[1..]);
    }
  }

  /** One lower-case hexadecimal digit, as its ASCII code. */
  function HexDigit(n: int): (d: byte)
    requires 0 <= n < 16
    ensures 48 <= d <= 57 || 97 <= d <= 102
  {
    if n < 10 then (48 + n) as byte else (87 + n) as byte
  }

  /** Lower-case hexadecimal text of a byte string. */
  function Hex(b: Bytes): (h: Ident)
    ensures |h| == 2 * |b|
  {
    if b == [] then [] else [HexDigit(b[0] as int / 16), HexDigit(b[0] as int % 16)] + Hex(b[1..])
  }

  /** Distinct keys give distinct contact identifiers. */
  lemma {:induction false} HexInjective(a: Bytes, b: Bytes)
    requires Hex(a) == Hex(b)
    ensures a == b
  {
    assert |Hex(a)| == 2 * |a| && |Hex(b)| == 2 * |b|;
    if a != [] {
      assert Hex(a)[0] == Hex(b)[0] && Hex(a)[1] == Hex(b)[1];
      assert a[0] as int / 16 == b[0] as int / 16 && a[0] as int % 16 == b[0] as int % 16;
      assert Hex(a)[2..] == Hex(a[1..]) && Hex(b)[2..] == Hex(b[1..]);
      HexInjective(a[1..], b[1..]);
      assert a == [a[0]] + a[1..] && b == [b[0]] + b[1..];
    }
  }

  /** `0` to `9`, `a` to `f`. */
  predicate IsLowerHex(d: byte) {
    48 <= d <= 57 || 97 <= d <= 102
  }

  /** The number a lower-case hexadecimal digit writes. */
  function DigitValue(d: byte): (n: int)
    requires IsLowerHex(d)
    ensures 0 <= n < 16
  {
    if d <= 57 then d as int - 48 else d as int - 87
  }

  /** Two digits a byte, the high one first. */
  lemma {:induction false} HexReadsBack(b: Bytes, i: nat)
    requires i < |b|
    ensures IsLowerHex(Hex(b)[2 * i]) && IsLowerHex(Hex(b)[2 * i + 1])
    ensures DigitValue(Hex(b)[2 * i]) * 16 + DigitValue(Hex(b)[2 * i + 1]) == b[i] as int
    decreases |b|
  {
    if i > 0 {
      HexReadsBack(b[1..], i - 1);
      assert Hex(b)[2..] == Hex(b[1..]);
      assert Hex(b)[2 * i] == Hex(b[1..])[2 * (i - 1)] && Hex(b)[2 * i + 1] == Hex(b[1..])[2 * (i - 1) + 1];
    }
  }

  /** Every even number of such digits is the hexadecimal text of some bytes. */
  lemma {:induction false} HexOfSomething(h: Ident) returns (b: Bytes)
    requires |h| % 2 == 0 && forall i :: 0 <= i < |h| ==> IsLowerHex(h[i])
    ensures Hex(b) == h
    decreases |h|
  {
    if h == [] {
      b := [];
    } else {
      var rest := HexOfSomething(h[2..]);
      var first := (DigitValue(h[0]) * 16 + DigitValue(h[1])) as byte;
      b := [first] + rest;
      assert b[1..] == rest && h == [h[0], h[1]] + h[2..];
      assert HexDigit(first as int / 16) == h[0] && HexDigit(first as int % 16) == h[1];
    }
  }

  /** Comparing at the first place two byte strings differ; a proper prefix comes first. */
  lemma {:induction false} LeqIsLexicographic(common: Bytes, x: byte, y: byte, a: Bytes, b: Bytes)
    requires x != y
    ensures Leq(common + [x] + a, common + [y] + b) <==> x < y
    ensures Leq(common, common + [x] + a) && !Leq(common + [x] + a, common)
    decreases |common|
  {
    if common == [] {
      assert (common + [x] + a)[0] == x && (common + [y] + b)[0] == y;
    } else {
      LeqIsLexicographic(common[1..], x, y, a, b);
      assert (common + [x] + a)[0] == common[0] && (common + [x] + a)[1..] == common[1..] + [x] + a;
      assert (common + [y] + b)[0] == common[0] && (common + [y] + b)[1..] == common[1..] + [y] + b;
    }
  }

  lemma {:induction false} TextLeqIsLexicographic(common: string, x: char, y: char, a: string, b: string)
    requires x != y
    ensures TextLeq(common + [x] + a, common + [y] + b) <==> x < y
    ensures TextLeq(common, common + [x] + a) && !TextLeq(common + [x] + a, common)
    decreases |common|
  {
    if common == "" {
      assert (common + [x] + a)[0] == x && (common + [y] + b)[0] == y;
    } else {
      TextLeqIsLexicographic(common[1..], x, y, a, b);
      assert (common + [x] + a)[0] == common[0] && (common + [x] + a)[1..] == common[1..] + [x] + a;
      assert (common + [y] + b)[0] == common[0] && (common + [y] + b)[1..] == common[1..] + [y] + b;
    }
  }
}
