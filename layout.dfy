/** The three button layouts of the Mega Drive side, and the power-on rule
    that picks one of them from the buttons held at start-up. */
module Layout {
  import opened Sfc

  /** The button mode, in the order of its C enumeration: BC is value 0, so a
      zero-initialised mode variable starts out as BC. */
  datatype Mode = BC | AB | XC

  /** The mode a statically allocated, zero-initialised variable holds. */
  const Initial: Mode := BC

  /** The layout decision of md_init: Left held selects AB, otherwise Right
      held selects BC, otherwise XC. Held means the active-low bit is clear. */
  function Choose(s: bv16): (m: Mode)
    ensures m == AB <==> !Bit(s, Left)
    ensures m == BC <==> Bit(s, Left) && !Bit(s, Right)
    ensures m == XC <==> Bit(s, Left) && Bit(s, Right)
  {
    if Dec(s, Left) == 0 then AB
    else if Dec(s, Right) == 0 then BC
    else XC
  }

  /** The layout read at power-on, stated in terms of the data line: Left is
      the seventh bit clocked out and Right the eighth, and a low level means
      held. Left takes priority when both are held. */
  lemma ChooseFromSamples(samples: seq<bool>)
    requires |samples| == Width
    ensures Choose(Pack(samples)) == AB <==> !samples[6]
    ensures Choose(Pack(samples)) == BC <==> samples[6] && !samples[7]
    ensures Choose(Pack(samples)) == XC <==> samples[6] && samples[7]
  {
    PackBit(samples, 6);
    PackBit(samples, 7);
  }
}
