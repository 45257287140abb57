/** ECMAScript integer operations, written out on unbounded integers. */
module Machine {

  const TWO_31 := 0x8000_0000
  const TWO_32 := 0x1_0000_0000

  /** One UTF-16 code unit; a JavaScript string is a sequence of them. */
  type CodeUnit = c: int | 0 <= c < 0x1_0000

  type Text = seq<CodeUnit>

  /** The ToInt32 conversion applied to the operands of `|`, `&`, `~`, `<<` and `>>`. */
  function ToInt32(x: int): int {
    var m := x % TWO_32;
    if m >= TWO_31 then m - TWO_32 else m
  }

  /** The same bits read without a sign. */
  function ToUint32(x: int): nat {
    x % TWO_32
  }

  lemma {:induction false} SmallUint32(x: int)
    requires 0 <= x < TWO_32
    ensures ToUint32(x) == x
  {
  }

  /** The ToUint16 conversion applied by `String.fromCharCode`. */
  function ToUint16(x: int): CodeUnit {
    x % 0x1_0000
  }

  function Pow2(n: nat): nat {
    if n == 0 then 1 else 2 * Pow2(n - 1)
  }

  /** Bitwise or of two bit patterns, least significant bit first. */
  function BitOr(a: nat, b: nat): nat
    decreases a + b
  {
    if a == 0 then b
    else if b == 0 then a
    else (if a % 2 == 1 || b % 2 == 1 then 1 else 0) + 2 * BitOr(a / 2, b / 2)
  }

  /** `Math.round`: the nearest integer, halves towards positive infinity. */
  function Round(x: real): int {
    (x + 0.5).Floor
  }

  lemma {:induction false} Pow2Positive(n: nat)
    ensures Pow2(n) >= 1
  {
    if n > 0 {
      Pow2Positive(n - 1);
    }
  }

  lemma {:induction false} Pow2Monotone(m: nat, n: nat)
    requires m <= n
    ensures Pow2(m) <= Pow2(n)
  {
    if m < n {
      Pow2Monotone(m, n - 1);
      Pow2Positive(n - 1);
    }
  }

  /** Patterns with no common bit: the or is the sum. */
  lemma {:induction false} BitOrDisjoint(a: nat, b: nat, s: nat)
    requires a < Pow2(s)
    ensures BitOr(a, b * Pow2(s)) == a + b * Pow2(s)
    decreases s
  {
    var y := b * Pow2(s);
    if s == 0 {
      assert a == 0;
    } else if a != 0 && y != 0 {
      var z := b * Pow2(s - 1);
      assert y == 2 * z by {
        assert Pow2(s) == 2 * Pow2(s - 1);
      }
      assert z >= 0;
      BitOrDisjoint(a / 2, b, s - 1);
    }
  }
}
