/** The SFC/SNES side of the adapter: the controller is a 16-bit shift
    register that is latched, then clocked out one bit per clock pulse,
    most significant bit first. Buttons are active low: a 0 bit means held. */
module Sfc {

  /** Bit positions of the buttons in a 16-bit snapshot. */
  const B: nat := 15
  const Y: nat := 14
  const Select: nat := 13
  const Start: nat := 12
  const Up: nat := 11
  const Down: nat := 10
  const Left: nat := 9
  const Right: nat := 8
  const A: nat := 7
  const X: nat := 6
  const L: nat := 5
  const R: nat := 4

  /** Number of clock pulses in one read. */
  const Width: nat := 16

  /** The snapshot every released controller reads as. */
  const Idle: bv16 := 0xFFFF

  /** The single-bit masks of a 16-bit word, bit 0 first. */
  const Masks: seq<bv16> := [0x0001, 0x0002, 0x0004, 0x0008, 0x0010, 0x0020, 0x0040, 0x0080,
                             0x0100, 0x0200, 0x0400, 0x0800, 0x1000, 0x2000, 0x4000, 0x8000]

  /** Whether bit `b` of `s` is set. */
  predicate Bit(s: bv16, b: nat)
    requires b < 16
  {
    s & Masks[b] != 0
  }

  /** SFC_DEC: bit `b` of the snapshot as a 0/1 value, that is the wire
      level of button `b` (0 = held). SFC_DEC reaches the bit by shifting
      right by `b` and masking with 1; the model reads it through the
      single-bit mask of `b`. */
  function Dec(s: bv16, b: nat): (v: bv8)
    requires b < 16
    ensures v <= 1
  {
    if s & Masks[b] != 0 then 1 else 0
  }

  /** The data line level of one sample as the bit the reader shifts in. */
  function Level(sample: bool): (x: bv16)
    ensures x <= 1 && (x == 1 <==> sample)
  {
    if sample then 1 else 0
  }

  /** The value the shift register accumulates from the samples of the data
      line, in clock order: each new sample is shifted in at bit 0. */
  function Pack(samples: seq<bool>): (state: bv16)
    decreases |samples|
  {
    if samples == [] then 0
    else (Pack(samples[..|samples| - 1]) << 1) | Level(samples[|samples| - 1])
  }

  /** After `n <= 16` samples the accumulator is below 2^n: every bit from
      position `n` up is still clear. */
  lemma {:induction false} PackBound(samples: seq<bool>)
    requires |samples| <= Width
    ensures Pack(samples) >> |samples| == 0
  {
    if samples != [] {
      var n := |samples| - 1;
      PackBound(samples[..n]);
      ShiftInBound(Pack(samples[..n]), Level(samples[n]), n);
    }
  }

  /** Sample `j` of `n <= 16` samples sits at bit `n - 1 - j`: the first
      sample ends up highest. */
  lemma {:induction false} PackBit(samples: seq<bool>, j: nat)
    requires |samples| <= Width && j < |samples|
    ensures Bit(Pack(samples), |samples| - 1 - j) <==> samples[j]
  {
    var n := |samples| - 1;
    var front := samples[..n];
    if j < n {
      PackBit(front, j);
      ShiftInMoves(Pack(front), Level(samples[n]), n - 1 - j);
    } else {
      ShiftInLow(Pack(front), Level(samples[n]));
    }
  }

  /** Shifting in one more sample keeps the accumulator one bit wider than
      the number of samples taken. */
  lemma ShiftInBound(p: bv16, x: bv16, n: nat)
    requires n < Width && p >> n == 0 && x <= 1
    ensures ((p << 1) | x) >> (n + 1) == 0
  {
  }

  /** Shifting in a sample puts it at bit 0. */
  lemma ShiftInLow(p: bv16, x: bv16)
    requires x <= 1
    ensures Bit((p << 1) | x, 0) <==> x == 1
  {
  }

  /** Shifting in a sample moves bit `k` up to `k + 1`. */
  lemma ShiftInMoves(p: bv16, x: bv16, k: nat)
    requires k < 15 && x <= 1
    ensures Bit((p << 1) | x, k + 1) <==> Bit(p, k)
  {
    assert Masks[k + 1] == Masks[k] << 1;
  }

  /** sfc_read: latch the controller, then clock out its 16 bits, sampling
      the data line once per clock. The data line is given as the 16 levels
      it shows, in clock order. */
  method Read(samples: seq<bool>) returns (state: bv16)
    requires |samples| == Width
    ensures state == Pack(samples)
    ensures forall i :: 0 <= i < Width ==> (Bit(state, 15 - i) <==> samples[i])
  {
    state := 0;
    var i := 0;
    while i < Width
      invariant 0 <= i <= Width
      invariant state == Pack(samples[..i])
    {
      state := (state << 1) | Level(samples[i]);
      assert samples[..i + 1][..i] == samples[..i];
      i := i + 1;
    }
    assert samples[..i] == samples;
    forall i | 0 <= i < Width
      ensures Bit(state, 15 - i) <==> samples[i]
    {
      PackBit(samples, i);
    }
  }
}
