/** `sqtt_packet_length`: the decision tree from a packet's low eight bits (its
    selector) to its length in bits, and the 256-entry table built from it. */
module SqttLength {
  import opened Wrappers
  import opened BitArith

  /** The lengths in bits that a SQTT packet can have. */
  const PacketLengths: set<nat> := {4, 8, 12, 20, 24, 28, 32, 52, 64, 96}

  /** The length of the packet whose low eight bits are `selector`, or nothing for an
      unknown packet. The two `unreachable!()` arms are proved dead; the fallback `None`
      of the `(selector / 16) % 8` match is never taken, and every length is non-zero, so
      the source's `NonZeroU8::new(..).unwrap()` cannot fail. */
  function PacketLength(selector: byte): (r: Option<nat>)
    ensures r.None? <==> selector % 16 == 7
    ensures r.Some? ==> 4 <= r.value <= 96
  {
    match selector % 8
    case 2 => Some(20)
    case 3 => Some(12)
    case _ =>
      match selector % 16
      case 0 => Some(4)
      case 1 =>
        (match (selector / 16) % 8
         case 0 => Some(64)
         case 1 => Some(64)
         case 2 => Some(64)
         case 3 => Some(64)
         case 7 => Some(64)
         case 4 => Some(96)
         case 5 => Some(24)
         case 6 =>
           (match selector / 16
            case 6 => Some(24)
            case 14 => Some(32)
            case _ => assert false; None)
         case _ => None)
      // The source reads `if true { 24 } else { 28 }`.
      case 4 => Some(24)
      case 5 => Some(20)
      case 6 =>
        (match selector % 32
         case 6 => Some(52)
         case 22 => Some(28)
         case _ => assert false; None)
      case 8 => Some(8)
      case 14 => Some(8)
      case 15 => Some(8)
      case 9 => Some(64)
      case 12 => Some(32)
      case 13 => Some(12)
      case _ => None
  }

  /** Every length is one of the ten packet lengths. */
  lemma PacketLengthIsKnown(selector: byte)
    requires PacketLength(selector).Some?
    ensures PacketLength(selector).value in PacketLengths
  {
  }

  /** `build_packet_length_table`: one entry per selector, equal to the direct computation,
      so looking a selector up in the table and computing its length agree. */
  function LengthTable(): (t: seq<Option<nat>>)
    ensures |t| == 256
    ensures forall s: byte :: t[s] == PacketLength(s)
  {
    seq(256, (s: int) requires 0 <= s < 256 => PacketLength(s))
  }
}
