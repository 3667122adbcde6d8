/** The Mega Drive output schedule: the eight bytes written to the data
    port, one per select line change, built from an SFC snapshot and the
    button layout. Lines are active low, like the SFC bits they copy. */
module Schedule {
  import opened Sfc
  import opened Layout

  /** Bit positions of the six Mega Drive data lines in the port register. */
  const D0: nat := 3
  const D1: nat := 2
  const D2: nat := 1
  const D3: nat := 0
  const D4: nat := 4
  const D5: nat := 7

  /** Port bits no data line uses (bits 5 and 6). */
  const Unused: bv8 := 0x60

  /** MD_ENC: a 0/1 line value moved to its pin's bit position. */
  function Enc(b: nat, v: bv8): (r: bv8)
    requires b < 8
  {
    v << b
  }

  /** The level of the line at bit position `b` of a port byte. */
  function Line(r: bv8, b: nat): (v: bv8)
    requires b < 8
  {
    (r >> b) & 1
  }

  /** One port byte carrying the six line values d0..d5 on D0..D5. Reading
      the lines back gives the values, and bits 5 and 6 stay clear. */
  function Port(d0: bv8, d1: bv8, d2: bv8, d3: bv8, d4: bv8, d5: bv8): (r: bv8)
    requires d0 <= 1 && d1 <= 1 && d2 <= 1 && d3 <= 1 && d4 <= 1 && d5 <= 1
    ensures Line(r, D0) == d0 && Line(r, D1) == d1 && Line(r, D2) == d2
    ensures Line(r, D3) == d3 && Line(r, D4) == d4 && Line(r, D5) == d5
    ensures r & Unused == 0
  {
    Enc(D0, d0) | Enc(D1, d1) | Enc(D2, d2) | Enc(D3, d3) | Enc(D4, d4) | Enc(D5, d5)
  }

  /** A port byte is determined by its six lines: packing the lines read
      back from a byte with bits 5 and 6 clear gives that byte again. */
  lemma PortRoundTrip(r: bv8)
    requires r & Unused == 0
    ensures Port(Line(r, D0), Line(r, D1), Line(r, D2), Line(r, D3), Line(r, D4), Line(r, D5)) == r
  {
  }

  /** The six extra Mega Drive buttons. */
  datatype Logical = LA | LB | LC | LX | LY | LZ

  /** md_sched_a .. md_sched_z: the physical SFC button each logical button
      reads in each layout. */
  function Source(m: Mode, l: Logical): (b: nat)
    ensures b in {A, B, X, Y, L, R}
  {
    match (m, l)
    case (BC, LA) => A
    case (BC, LB) => Y
    case (BC, LC) => B
    case (BC, LX) => L
    case (BC, LY) => X
    case (BC, LZ) => R
    case (AB, LA) => Y
    case (AB, LB) => B
    case (AB, LC) => A
    case (AB, LX) => L
    case (AB, LY) => X
    case (AB, LZ) => R
    case (XC, LA) => B
    case (XC, LB) => A
    case (XC, LC) => R
    case (XC, LX) => Y
    case (XC, LY) => X
    case (XC, LZ) => L
  }

  /** The wire level of logical button `l` in snapshot `s` under layout `m`. */
  function Extra(m: Mode, l: Logical, s: bv16): (v: bv8)
    ensures v <= 1
  {
    Dec(s, Source(m, l))
  }

  /** Every layout is a bijection from the six logical buttons onto the six
      physical face and shoulder buttons A, B, X, Y, L, R. */
  lemma LayoutIsBijection(m: Mode)
    ensures forall l1: Logical, l2: Logical :: Source(m, l1) == Source(m, l2) ==> l1 == l2
    ensures {Source(m, LA), Source(m, LB), Source(m, LC), Source(m, LX), Source(m, LY), Source(m, LZ)}
         == {A, B, X, Y, L, R}
  {
  }

  /** Logical Y is physical X in every layout. */
  lemma YIsAlwaysX(m: Mode, s: bv16)
    ensures Extra(m, LY, s) == Dec(s, X)
  {
  }

  /** With only one physical button held, exactly the logical button mapped
      to it reads as held (line level 0). */
  lemma OnlyOneHeld(m: Mode, l: Logical, l': Logical)
    ensures Extra(m, l', Idle & !Masks[Source(m, l)]) == 0 <==> l' == l
  {
  }

  /** md_sched0: Up, Down, Left, Right, logical B and logical C. */
  function Sched0(m: Mode, s: bv16): (r: bv8)
  {
    Port(Dec(s, Up), Dec(s, Down), Dec(s, Left), Dec(s, Right), Extra(m, LB, s), Extra(m, LC, s))
  }

  /** md_sched1: Up, Down, two low lines, logical A and Start. */
  function Sched1(m: Mode, s: bv16): (r: bv8)
  {
    Port(Dec(s, Up), Dec(s, Down), 0, 0, Extra(m, LA, s), Dec(s, Start))
  }

  /** md_sched2: the same as entry 0. */
  function Sched2(m: Mode, s: bv16): (r: bv8)
  {
    Sched0(m, s)
  }

  /** md_sched3: the same as entry 1. */
  function Sched3(m: Mode, s: bv16): (r: bv8)
  {
    Sched1(m, s)
  }

  /** md_sched4: the same as entry 0. */
  function Sched4(m: Mode, s: bv16): (r: bv8)
  {
    Sched0(m, s)
  }

  /** md_sched5: four low lines (the 6-button identification), logical A
      and Start. */
  function Sched5(m: Mode, s: bv16): (r: bv8)
  {
    Port(0, 0, 0, 0, Extra(m, LA, s), Dec(s, Start))
  }

  /** md_sched6: logical Z, Y, X, Select, logical B and logical C. */
  function Sched6(m: Mode, s: bv16): (r: bv8)
  {
    Port(Extra(m, LZ, s), Extra(m, LY, s), Extra(m, LX, s), Dec(s, Select), Extra(m, LB, s), Extra(m, LC, s))
  }

  /** md_sched7: four high lines, logical A and Start. */
  function Sched7(m: Mode, s: bv16): (r: bv8)
  {
    Port(1, 1, 1, 1, Extra(m, LA, s), Dec(s, Start))
  }

  /** The schedule of an all-released controller, whatever the layout. */
  const IdleSchedule: seq<bv8> := [0x9F, 0x9C, 0x9F, 0x9C, 0x9F, 0x90, 0x9F, 0x9F]

  /** The eight bytes md_sched_update stores, entry n for select change n. */
  function Build(m: Mode, s: bv16): (r: seq<bv8>)
    ensures |r| == 8
  {
    [Sched0(m, s), Sched1(m, s), Sched2(m, s), Sched3(m, s),
     Sched4(m, s), Sched5(m, s), Sched6(m, s), Sched7(m, s)]
  }

  /** The shape every schedule has, whatever the snapshot and the layout:
      entries 2 and 4 repeat entry 0 and entry 3 repeats entry 1; bits 5 and
      6 are clear everywhere; entry 1 has bits 0-1 clear, entry 5 bits 0-3
      clear and entry 7 bits 0-3 set; entries 1, 5 and 7 agree on bit 4
      (logical A) and bit 7 (Start). */
  lemma ScheduleShape(m: Mode, s: bv16)
    ensures var r := Build(m, s);
      && r[2] == r[0] && r[4] == r[0] && r[3] == r[1]
      && (forall i :: 0 <= i < 8 ==> r[i] & Unused == 0)
      && r[1] & 0x03 == 0 && r[5] & 0x0F == 0 && r[7] & 0x0F == 0x0F
      && r[1] & 0x90 == r[5] & 0x90 == r[7] & 0x90
  {
  }

  /** An all-released controller gives the same schedule in every layout. */
  lemma IdleInEveryMode(m: Mode)
    ensures Build(m, Idle) == IdleSchedule
  {
  }

  /** What each entry carries on its six lines, read back from the bytes:
      entries 0, 2 and 4 the directions with B and C, entries 1 and 3 Up and
      Down with A and Start, entry 5 four low lines, entry 6 Z, Y, X, Select,
      B and C, entry 7 four high lines. */
  lemma ScheduleLines(m: Mode, s: bv16)
    ensures var r := Build(m, s);
      && Line(r[0], D0) == Dec(s, Up) && Line(r[0], D1) == Dec(s, Down)
      && Line(r[0], D2) == Dec(s, Left) && Line(r[0], D3) == Dec(s, Right)
      && Line(r[0], D4) == Extra(m, LB, s) && Line(r[0], D5) == Extra(m, LC, s)
      && Line(r[1], D0) == Dec(s, Up) && Line(r[1], D1) == Dec(s, Down)
      && Line(r[1], D2) == 0 && Line(r[1], D3) == 0
      && Line(r[1], D4) == Extra(m, LA, s) && Line(r[1], D5) == Dec(s, Start)
      && Line(r[5], D0) == 0 && Line(r[5], D1) == 0 && Line(r[5], D2) == 0 && Line(r[5], D3) == 0
      && Line(r[5], D4) == Extra(m, LA, s) && Line(r[5], D5) == Dec(s, Start)
      && Line(r[6], D0) == Extra(m, LZ, s) && Line(r[6], D1) == Extra(m, LY, s)
      && Line(r[6], D2) == Extra(m, LX, s) && Line(r[6], D3) == Dec(s, Select)
      && Line(r[6], D4) == Extra(m, LB, s) && Line(r[6], D5) == Extra(m, LC, s)
      && Line(r[7], D0) == 1 && Line(r[7], D1) == 1 && Line(r[7], D2) == 1 && Line(r[7], D3) == 1
      && Line(r[7], D4) == Extra(m, LA, s) && Line(r[7], D5) == Dec(s, Start)
  {
  }
}
