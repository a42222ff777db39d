/** The flow-control part of `COMSettings`: the mode `flow_control` reads
    off DCB.fBits and the bits `set_flow_control` writes. */
module Flow {
  import opened Line

  // `hw` is the RTS/CTS group (fOutxCtsFlow | fRtsControl), `sw` the
  // XON/XOFF group (fOutX | fInX).

  /** The `flow_control` view of fBits: any RTS/CTS bit means hardware flow
      control, whatever the XON/XOFF bits say. */
  function FlowFromBits(hw: bv32, sw: bv32, bits: bv32): FlowControl
  {
    if bits & hw != 0 then FlowHardware
    else if bits & sw != 0 then FlowSoftware
    else FlowNone
  }

  /** The flow-control bits a mode sets. */
  function FlowBitsOf(hw: bv32, sw: bv32, m: FlowControl): bv32
  {
    match m
    case FlowNone => 0
    case FlowSoftware => sw
    case FlowHardware => hw
  }

  /** The reference meaning of `set_flow_control`: clear both groups, then
      set the chosen mode's group; every other bit is kept. */
  function FlowIntoBits(hw: bv32, sw: bv32, bits: bv32, m: FlowControl): bv32
  {
    (bits & !(hw | sw)) | FlowBitsOf(hw, sw, m)
  }

  /** The three views are exclusive and cover every fBits value; the
      hardware group takes precedence (the view reports hardware even when
      XON/XOFF bits are set too). */
  lemma FlowView(hw: bv32, sw: bv32, bits: bv32)
    ensures FlowFromBits(hw, sw, bits) == FlowHardware <==> bits & hw != 0
    ensures FlowFromBits(hw, sw, bits) == FlowSoftware <==> bits & hw == 0 && bits & sw != 0
    ensures FlowFromBits(hw, sw, bits) == FlowNone <==> bits & (hw | sw) == 0
  {
  }

  /** Whatever the previous bits, a mode once set reads back as itself. */
  lemma FlowRoundTrip(hw: bv32, sw: bv32, bits: bv32, m: FlowControl)
    requires hw != 0 && sw != 0 && hw & sw == 0
    ensures FlowFromBits(hw, sw, FlowIntoBits(hw, sw, bits, m)) == m
  {
    match m {
      case FlowNone => NoneRoundTrip(hw, sw, bits);
      case FlowSoftware => SoftwareRoundTrip(hw, sw, bits);
      case FlowHardware => HardwareRoundTrip(hw, sw, bits);
    }
  }

  /** Clearing both groups reads back as no flow control. */
  lemma NoneRoundTrip(hw: bv32, sw: bv32, bits: bv32)
    ensures FlowFromBits(hw, sw, FlowIntoBits(hw, sw, bits, FlowNone)) == FlowNone
  {
  }

  /** Setting only the XON/XOFF group reads back as software flow control. */
  lemma SoftwareRoundTrip(hw: bv32, sw: bv32, bits: bv32)
    requires sw != 0 && hw & sw == 0
    ensures FlowFromBits(hw, sw, FlowIntoBits(hw, sw, bits, FlowSoftware)) == FlowSoftware
  {
    SoftwareGroupBits(hw, sw, bits);
    SoftwareInto(hw, sw, bits);
    SoftwareView(hw, sw, (bits & !(hw | sw)) | sw);
  }

  /** The software update, unfolded. */
  lemma SoftwareInto(hw: bv32, sw: bv32, bits: bv32)
    ensures FlowIntoBits(hw, sw, bits, FlowSoftware) == (bits & !(hw | sw)) | sw
  {
  }

  /** No RTS/CTS bit and some XON/XOFF bit is the software view. */
  lemma SoftwareView(hw: bv32, sw: bv32, r: bv32)
    ensures r & hw == 0 && r & sw != 0 ==> FlowFromBits(hw, sw, r) == FlowSoftware
  {
  }

  /** The bit-level facts behind SoftwareRoundTrip. */
  lemma SoftwareGroupBits(hw: bv32, sw: bv32, bits: bv32)
    requires sw != 0 && hw & sw == 0
    ensures ((bits & !(hw | sw)) | sw) & hw == 0
    ensures ((bits & !(hw | sw)) | sw) & sw != 0
  {
  }

  /** Setting the RTS/CTS group reads back as hardware flow control. */
  lemma HardwareRoundTrip(hw: bv32, sw: bv32, bits: bv32)
    requires hw != 0
    ensures FlowFromBits(hw, sw, FlowIntoBits(hw, sw, bits, FlowHardware)) == FlowHardware
  {
  }

  /** The flow-control bits afterwards are exactly the mode's group: nothing
      of a previous mode is left behind. */
  lemma FlowBitsExact(hw: bv32, sw: bv32, bits: bv32, m: FlowControl)
    ensures FlowIntoBits(hw, sw, bits, m) & (hw | sw) == FlowBitsOf(hw, sw, m)
  {
    match m
    case FlowNone =>
    case FlowSoftware =>
    case FlowHardware =>
  }

  /** The bits outside the two groups are untouched. */
  lemma FlowFrame(hw: bv32, sw: bv32, bits: bv32, m: FlowControl)
    ensures FlowIntoBits(hw, sw, bits, m) & !(hw | sw) == bits & !(hw | sw)
  {
    match m
    case FlowNone =>
    case FlowSoftware =>
    case FlowHardware =>
  }

  /** Masking equal outside parts and or-ing the same bits gives equal words. */
  lemma MaskedOrCongruence(u: bv32, b1: bv32, b2: bv32, x: bv32)
    requires b1 & !u == b2 & !u
    ensures (b1 & !u) | x == (b2 & !u) | x
  {
  }

  /** `set_flow_control` reads only the bits outside the two groups. */
  lemma FlowIntoOutside(hw: bv32, sw: bv32, b1: bv32, b2: bv32, m: FlowControl)
    requires b1 & !(hw | sw) == b2 & !(hw | sw)
    ensures FlowIntoBits(hw, sw, b1, m) == FlowIntoBits(hw, sw, b2, m)
  {
    MaskedOrCongruence(hw | sw, b1, b2, FlowBitsOf(hw, sw, m));
  }

  /** Setting a mode over any earlier mode gives what setting it alone
      gives: no bit of the earlier mode leaks through. */
  lemma FlowLastWins(hw: bv32, sw: bv32, bits: bv32, m1: FlowControl, m2: FlowControl)
    ensures FlowIntoBits(hw, sw, FlowIntoBits(hw, sw, bits, m1), m2) == FlowIntoBits(hw, sw, bits, m2)
  {
    FlowFrame(hw, sw, bits, m1);
    FlowIntoOutside(hw, sw, FlowIntoBits(hw, sw, bits, m1), bits, m2);
  }

  /** Setting a mode twice equals setting it once. */
  lemma FlowIdempotent(hw: bv32, sw: bv32, bits: bv32, m: FlowControl)
    ensures FlowIntoBits(hw, sw, FlowIntoBits(hw, sw, bits, m), m) == FlowIntoBits(hw, sw, bits, m)
  {
    FlowLastWins(hw, sw, bits, m, m);
  }

  /** `bits &= !mask` */
  function ClearBits(bits: bv32, mask: bv32): bv32 { bits & !mask }

  /** `bits |= mask` */
  function SetBits(bits: bv32, mask: bv32): bv32 { bits | mask }

  /** FlowNone's two `&=` steps clear both groups. */
  lemma FlowNoneSteps(hw: bv32, sw: bv32, bits: bv32)
    ensures ClearBits(ClearBits(bits, hw), sw) == FlowIntoBits(hw, sw, bits, FlowNone)
  {
  }

  /** FlowSoftware's `&=` then `|=` is clear-then-set. */
  lemma FlowSoftwareSteps(hw: bv32, sw: bv32, bits: bv32)
    ensures SetBits(ClearBits(bits, hw), sw) == FlowIntoBits(hw, sw, bits, FlowSoftware)
  {
  }

  /** FlowHardware sets its group before clearing the other; with disjoint
      groups that is still clear-then-set. */
  lemma FlowHardwareSteps(hw: bv32, sw: bv32, bits: bv32)
    requires hw & sw == 0
    ensures ClearBits(SetBits(bits, hw), sw) == FlowIntoBits(hw, sw, bits, FlowHardware)
  {
  }
}
