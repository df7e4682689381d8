/** Short hexadecimal ids drawn from a counter (src/types.rs, `IdGenerator`). */
module Ids {
  import opened Base

  type AgentId = string

  const U64: nat := 0x1_0000_0000_0000_0000
  const MULTIPLIER: nat := 0x9E3779B97F4A7C15
  /** Ids live in sixteen bits, so they repeat with this period. */
  const PERIOD: nat := 0x1_0000
  /** MULTIPLIER modulo PERIOD, and its inverse there. */
  const LOW_MULTIPLIER: nat := 31765
  const INVERSE: nat := 29501

  function HexDigit(d: nat): char
    requires d < 16
  {
    if d < 10 then '0' + d as char else 'a' + (d - 10) as char
  }

  function HexValue(c: char): nat {
    if '0' <= c <= '9' then c as nat - '0' as nat
    else if 'a' <= c <= 'f' then c as nat - 'a' as nat + 10
    else 0
  }

  /** `format!("{:04x}", v)`. */
  function Hex4(v: nat): AgentId
    requires v < PERIOD
  {
    [HexDigit(v / 4096), HexDigit(v / 256 % 16), HexDigit(v / 16 % 16), HexDigit(v % 16)]
  }

  /** A wrapping 64-bit multiplication, then the low sixteen bits. */
  function Shuffle(n: nat): (v: nat)
    ensures v < PERIOD
  {
    ((n % U64) * MULTIPLIER) % U64 % PERIOD
  }

  function IdOf(counter: nat): AgentId {
    Hex4(Shuffle(counter))
  }

  /**
   * `draw` gives the id drawn at each counter value. The rest of the model is stated over any such
   * stream, so that it does not depend on how an id is spelled.
   */
  ghost predicate IsIdStream(draw: nat -> AgentId) {
    forall n {:trigger IdOf(n)} :: draw(n) == IdOf(n)
  }

  class IdGenerator {
    var counter: nat

    constructor (start: nat)
      ensures counter == start
    {
      counter := start;
    }

    method Next() returns (id: AgentId)
      modifies this
      ensures id == IdOf(old(counter)) && counter == old(counter) + 1
    {
      var n := counter;
      counter := counter + 1;
      var shuffled := ((n % U64) * MULTIPLIER) % U64 % PERIOD;
      id := Hex4(shuffled);
    }
  }

  // ---- The shuffle is a bijection of sixteen-bit values ----

  lemma HexDigitInverse(d: nat)
    requires d < 16
    ensures HexValue(HexDigit(d)) == d
  {
  }

  /** Reads four hexadecimal digits back. */
  function ReadHex(id: AgentId): nat
    requires |id| == 4
  {
    4096 * HexValue(id[0]) + 256 * HexValue(id[1]) + 16 * HexValue(id[2]) + HexValue(id[3])
  }

  /** Printing and reading an id undo each other. */
  lemma ReadHexInverse(v: nat)
    requires v < PERIOD
    ensures ReadHex(Hex4(v)) == v
  {
    HexDigitInverse(v / 4096);
    HexDigitInverse(v / 256 % 16);
    HexDigitInverse(v / 16 % 16);
    HexDigitInverse(v % 16);
    assert v / 256 / 16 == v / 4096 && v / 16 / 16 == v / 256;
  }

  /** Only the low sixteen bits of counter and multiplier matter. */
  lemma ShuffleLow(n: nat)
    ensures Shuffle(n) == (n * LOW_MULTIPLIER) % PERIOD
  {
    var q, r := n / U64, n % U64;
    var p := r * MULTIPLIER;
    assert p == (p / U64) * U64 + p % U64;
    assert U64 == 0x1_0000_0000_0000 * PERIOD;
    ModAdd(p % U64, (p / U64) * 0x1_0000_0000_0000);
    assert p % PERIOD == Shuffle(n);
    assert MULTIPLIER == 0x9E3779B97F4A * PERIOD + LOW_MULTIPLIER;
    ModAdd(r * LOW_MULTIPLIER, r * 0x9E3779B97F4A);
    ModAdd(r * LOW_MULTIPLIER, q * 0x1_0000_0000_0000 * LOW_MULTIPLIER);
  }

  lemma ModAdd(x: int, k: int)
    ensures (x + k * PERIOD) % PERIOD == x % PERIOD
  {}

  /** Multiplying by the inverse undoes the shuffle. */
  lemma ShuffleInverse(n: nat)
    ensures (Shuffle(n) * INVERSE) % PERIOD == n % PERIOD
  {
    ShuffleLow(n);
    var m := n * LOW_MULTIPLIER;
    assert m == (m / PERIOD) * PERIOD + m % PERIOD;
    ModAdd((m % PERIOD) * INVERSE, (m / PERIOD) * INVERSE);
    assert m * INVERSE == n * 937099265 && 937099265 == 14299 * PERIOD + 1;
    ModAdd(n, n * 14299);
  }

  /** Two counters draw the same id exactly when they agree modulo 65536. */
  lemma IdCollision(a: nat, b: nat)
    ensures IdOf(a) == IdOf(b) <==> a % PERIOD == b % PERIOD
  {
    if IdOf(a) == IdOf(b) {
      ReadHexInverse(Shuffle(a));
      ReadHexInverse(Shuffle(b));
      ShuffleInverse(a);
      ShuffleInverse(b);
    }
    if a % PERIOD == b % PERIOD {
      ShuffleLow(a);
      ShuffleLow(b);
      ModAdd((a % PERIOD) * LOW_MULTIPLIER, (a / PERIOD) * LOW_MULTIPLIER);
      ModAdd((b % PERIOD) * LOW_MULTIPLIER, (b / PERIOD) * LOW_MULTIPLIER);
    }
  }

  lemma SameResidueApart(a: nat, b: nat)
    requires a < b && a % PERIOD == b % PERIOD
    ensures b >= a + PERIOD
  {
    assert a == (a / PERIOD) * PERIOD + a % PERIOD;
    assert b == (b / PERIOD) * PERIOD + b % PERIOD;
  }

  /** Any 65536 consecutive draws are pairwise distinct, wherever the counter starts. */
  lemma WindowDistinct(start: nat, a: nat, b: nat)
    requires start <= a < b < start + PERIOD
    ensures IdOf(a) != IdOf(b)
  {
    IdCollision(a, b);
    if IdOf(a) == IdOf(b) { SameResidueApart(a, b); }
  }

  /** The counter value below PERIOD that draws `v`. */
  lemma ShuffleOnto(v: nat)
    requires v < PERIOD
    ensures Shuffle((v * INVERSE) % PERIOD) == v
  {
    var m := v * INVERSE;
    var target := m % PERIOD;
    ShuffleLow(target);
    assert m == (m / PERIOD) * PERIOD + target;
    ModAdd(target * LOW_MULTIPLIER, (m / PERIOD) * LOW_MULTIPLIER);
    assert m * LOW_MULTIPLIER == v * 937099265 && 937099265 == 14299 * PERIOD + 1;
    ModAdd(v, v * 14299);
  }

  /** Every sixteen-bit value is drawn once in each period: nothing is wasted. */
  lemma EveryIdIsDrawn(start: nat, v: nat)
    requires v < PERIOD
    ensures exists c :: start <= c < start + PERIOD && IdOf(c) == Hex4(v)
  {
    ShuffleOnto(v);
    var target := (v * INVERSE) % PERIOD;
    var base := start % PERIOD;
    var turns := start / PERIOD + if target >= base then 0 else 1;
    var c := target + turns * PERIOD;
    ModAdd(target, turns);
    IdCollision(c, target);
    assert start == (start / PERIOD) * PERIOD + base;
    assert start <= c < start + PERIOD && IdOf(c) == Hex4(v);
  }

  /** Wrapping the 64-bit counter does not disturb the sequence of ids. */
  lemma CounterWrapIsHarmless(n: nat)
    ensures IdOf(n % U64) == IdOf(n)
  {
    assert (n % U64) % U64 == n % U64;
  }
}
