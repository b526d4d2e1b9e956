/** The per-vehicle random source of the efficiency chart
    (src/components/charts/EfficiencyLineChart.tsx, lines 15-27 and 51-52):
    `hashStr`, 32-bit FNV-1a over the UTF-16 code units of the vehicle id,
    seeds `mulberry32`, a generator whose state is a JavaScript number and
    whose output is mixed with 32-bit integer operations. */
module SeedHash {
  import Seqs

  // ---------------------------------------------------------------------
  // UTF-16 code units (`charCodeAt`)

  /** The UTF-16 code units of one character: itself below U+10000, a
      surrogate pair above. */
  function CodeUnits(c: char): (r: seq<bv16>)
    ensures |r| == if c as int < 0x1_0000 then 1 else 2
  {
    var n := c as int;
    if n < 0x1_0000 then [n as bv16]
    else
      var u := n - 0x1_0000;
      [(0xD800 + u / 0x400) as bv16, (0xDC00 + u % 0x400) as bv16]
  }

  /** The UTF-16 code units of a string, in order. */
  function Utf16(s: string): (r: seq<bv16>)
    ensures |r| >= |s|
  {
    if s == [] then [] else Utf16(s[..|s| - 1]) + CodeUnits(s[|s| - 1])
  }

  // ---------------------------------------------------------------------
  // hashStr

  const FnvOffset: bv32 := 2166136261
  const FnvPrime: bv32 := 16777619

  /** One FNV-1a step: `Math.imul(h ^ c, 16777619)`, modulo 2^32. */
  function FnvStep(h: bv32, c: bv16): bv32 {
    (h ^ (c as int as bv32)) * FnvPrime
  }

  /** The hash state after folding `units`, left to right, into `h`. */
  function FnvFrom(h: bv32, units: seq<bv16>): bv32 {
    if units == [] then h else FnvStep(FnvFrom(h, units[..|units| - 1]), units[|units| - 1])
  }

  /** 32-bit FNV-1a of a code-unit sequence. */
  function Fnv1a(units: seq<bv16>): bv32 {
    FnvFrom(FnvOffset, units)
  }

  /** Folding a concatenation folds the second part from the state the
      first part leaves: the hash consumes units strictly left to right. */
  lemma {:induction false} FnvFromAppend(h: bv32, a: seq<bv16>, b: seq<bv16>)
    ensures FnvFrom(h, a + b) == FnvFrom(FnvFrom(h, a), b)
  {
    if b == [] {
      assert a + b == a;
    } else {
      var ab := a + b;
      assert ab[..|ab| - 1] == a + b[..|b| - 1];
      assert ab[|ab| - 1] == b[|b| - 1];
      FnvFromAppend(h, a, b[..|b| - 1]);
    }
  }

  /** Hashing one more unit is one more step from the previous hash. */
  lemma Fnv1aSnoc(units: seq<bv16>, c: bv16)
    ensures Fnv1a(units + [c]) == FnvStep(Fnv1a(units), c)
  {
    FnvFromAppend(FnvOffset, units, [c]);
  }

  /** The empty string hashes to the offset basis. */
  lemma Fnv1aEmpty()
    ensures Fnv1a(Utf16("")) == 2166136261
  {
  }

  /** "a" hashes to the published FNV-1a value 0xE40C292C. */
  lemma Fnv1aOfA()
    ensures Fnv1a(Utf16("a")) == 0xE40C292C
  {
    var units := Utf16("a");
    assert units == [0x61] by {
      assert "a"[..0] == [];
    }
    assert units[..0] == [];
    assert Fnv1a(units) == FnvStep(FnvOffset, 0x61);
  }

  /** `hashStr`: folds the code units of `s` into the FNV offset basis and
      returns the state as an unsigned 32-bit number. */
  method HashStr(s: string) returns (h: bv32)
    ensures h == Fnv1a(Utf16(s))
  {
    var units := Utf16(s);
    var state: bv32 := FnvOffset;
    var i := 0;
    while i < |units|
      invariant 0 <= i <= |units|
      invariant state == Fnv1a(units[..i])
    {
      Fnv1aSnoc(units[..i], units[i]);
      assert units[..i + 1] == units[..i] + [units[i]];
      state := FnvStep(state, units[i]);
      i := i + 1;
    }
    assert units[..i] == units;
    h := state;
  }

  // ---------------------------------------------------------------------
  // mulberry32

  /** The amount the generator adds to its state on every call. */
  const Increment: bv32 := 0x6D2B79F5

  /** The 32-bit mixing of a state value, ending with `>>> 0`. */
  function Mix(t: bv32): bv32 {
    var t1 := (t ^ (t >> 15)) * (t | 1);
    var t2 := t1 ^ (t1 + (t1 ^ (t1 >> 7)) * (t1 | 61));
    t2 ^ (t2 >> 14)
  }

  /** An unsigned 32-bit value divided by 2^32. */
  function Unit(x: bv32): (r: real)
    ensures 0.0 <= r < 1.0
  {
    (x as int) as real / 4294967296.0
  }

  /** What a call returns once the state has become `state`. */
  function Output(state: bv32): (r: real)
    ensures 0.0 <= r < 1.0
  {
    Unit(Mix(state))
  }

  /** The state after `k` calls from `state`. */
  function StateAfter(state: bv32, k: nat): bv32 {
    if k == 0 then state else StateAfter(state, k - 1) + Increment
  }

  /** The generator closure `mulberry32(seed)`. Its captured number grows
      by the increment on every call, and the bitwise operators see only
      that number modulo 2^32, so the state is kept as 32 bits. */
  class Mulberry32 {
    var state: bv32

    /** `mulberry32(seed)` for an unsigned 32-bit seed, as `hashStr` returns. */
    constructor (seed: bv32)
      ensures state == seed
    {
      state := seed;
    }

    /** One call: advances the state, then mixes it into [0, 1). */
    method Next() returns (r: real)
      modifies this
      ensures state == old(state) + Increment
      ensures r == Output(state)
      ensures 0.0 <= r < 1.0
    {
      state := state + Increment;
      r := Unit(Mix(state));
    }
  }

  /** `f` of each of the `n` states that follow `state`, one increment apart. */
  function Series<T>(f: bv32 -> T, state: bv32, n: nat): (r: seq<T>)
    ensures |r| == n
    decreases n
  {
    if n == 0 then [] else [f(state + Increment)] + Series(f, state + Increment, n - 1)
  }

  /** The state `k + 1` calls on is the state `k` calls on from the next state. */
  lemma {:induction false} StateAfterShift(state: bv32, k: nat)
    ensures StateAfter(state + Increment, k) == StateAfter(state, k + 1)
  {
    if k > 0 {
      StateAfterShift(state, k - 1);
    }
  }

  /** The `i`-th element (from 0) is `f` of the state `i + 1` calls on. */
  lemma {:induction false} SeriesAt<T>(f: bv32 -> T, state: bv32, n: nat, i: nat)
    requires i < n
    ensures Series(f, state, n)[i] == f(StateAfter(state, i + 1))
    decreases n
  {
    if i > 0 {
      SeriesAt(f, state + Increment, n - 1, i - 1);
      StateAfterShift(state, i);
    }
  }

  /** The `n` values a generator in state `state` returns next, in order:
      each call adds the increment, then mixes the new state. */
  function Draws(state: bv32, n: nat): (r: seq<real>)
    ensures |r| == n
  {
    Series(Output, state, n)
  }

  /** Every draw is the output of its own state and lies in [0, 1). */
  lemma DrawsAt(state: bv32, n: nat, i: nat)
    requires i < n
    ensures Draws(state, n)[i] == Output(StateAfter(state, i + 1))
    ensures 0.0 <= Draws(state, n)[i] < 1.0
  {
    SeriesAt(Output, state, n, i);
  }

  /** The first draw, then the draws from the advanced state. */
  lemma DrawsStep(state: bv32, m: nat)
    requires m > 0
    ensures Draws(state, m) == [Output(state + Increment)] + Draws(state + Increment, m - 1)
  {
  }

  /** `n` successive calls of a generator in state `rnd.state`. */
  method DrawMany(rnd: Mulberry32, n: nat) returns (draws: seq<real>)
    modifies rnd
    ensures draws == Draws(old(rnd.state), n)
  {
    draws := [];
    var i := 0;
    while i < n
      invariant 0 <= i <= n
      invariant draws + Draws(rnd.state, n - i) == Draws(old(rnd.state), n)
    {
      ghost var before := rnd.state;
      var x := rnd.Next();
      DrawsStep(before, n - i);
      Seqs.Assoc(draws, [x], Draws(rnd.state, n - i - 1));
      draws := draws + [x];
      i := i + 1;
    }
  }

  /** The chart's random source for a vehicle: seeds a generator with the
      hash of the id and draws `n` values. They depend on the id alone. */
  method SeriesDraws(vehicleId: string, n: nat) returns (draws: seq<real>)
    ensures draws == Draws(Fnv1a(Utf16(vehicleId)), n)
  {
    var seed := HashStr(vehicleId);
    var rnd := new Mulberry32(seed);
    draws := DrawMany(rnd, n);
  }
}
