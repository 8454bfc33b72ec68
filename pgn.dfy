/** Parameter group numbers: the 18 bits that name a J1939 message's content,
    and the destination/broadcast reading of them chosen by the PDU format byte. */
module ParameterGroup {
  import opened Prim

  /** The fields of a PGN. `specific` is a destination address when
      `format < 240` and a group extension otherwise. */
  datatype Number = Number(specific: u8, format: u8, dataPage: bool, extendedDataPage: bool)

  /** `Number::to_bits`: extended data page in bit 17, data page in bit 16,
      format in bits 15..8, specific in bits 7..0. */
  function NumberToBits(n: Number): (r: u32)
    ensures r < 0x4_0000
    ensures U32AsU8(r) == n.specific
    ensures U32AsU8(r >> 8) == n.format
    ensures (r >> 16) & 1 == 1 <==> n.dataPage
    ensures (r >> 17) & 1 == 1 <==> n.extendedDataPage
  {
    var s := n.specific as u32;
    var f := n.format as u32;
    var d := BoolAsU32(n.dataPage);
    var e := BoolAsU32(n.extendedDataPage);
    (e << 17) | (d << 16) | (f << 8) | s
  }

  /** `Number::default()`: every field zero or false, so no bit is set. */
  function NumberDefault(): (n: Number)
    ensures NumberToBits(n) == 0
  {
    Number(0, 0, false, false)
  }

  /** Two PGNs with the same bits are the same PGN. */
  lemma NumberToBitsInjective(a: Number, b: Number)
    requires NumberToBits(a) == NumberToBits(b)
    ensures a == b
  {
  }

  /** A PGN tagged with how its `specific` byte is to be read. */
  datatype Pgn = Destination(number: Number) | Broadcast(number: Number)

  /** `Pgn::new`: the variant is chosen by the format byte; the number is kept. */
  function PgnNew(number: Number): (p: Pgn)
    ensures p.number == number
    ensures p.Destination? <==> number.format < 240
  {
    if number.format < 240 then Destination(number) else Broadcast(number)
  }

  /** `Pgn::new_destination`: rejects a format of 240 or more. */
  function NewDestination(number: Number): (r: Result<Pgn>)
    ensures r.Ok? <==> number.format < 240
    ensures r.Ok? ==> r.value == PgnNew(number) && r.value.Destination?
  {
    if number.format < 240 then Ok(Destination(number)) else Err
  }

  /** `Pgn::new_broadcast` as written: rejects a format below 240, but on
      success tags the number as `Destination`. */
  function NewBroadcast(number: Number): (r: Result<Pgn>)
    ensures r.Err? <==> number.format < 240
    ensures r.Ok? ==> r.value == Destination(number)
  {
    if number.format >= 240 then Ok(Destination(number)) else Err
  }

  /** The defect in `Pgn::new_broadcast`: every number it accepts comes back
      with the variant that `Pgn::new` would not give it. */
  lemma NewBroadcastMislabels(number: Number)
    requires number.format >= 240
    ensures NewBroadcast(number).Ok?
    ensures NewBroadcast(number).value != PgnNew(number)
    ensures !NewBroadcast(number).value.Broadcast?
  {
  }

  /** `Pgn::new_broadcast` as its name and documentation intend. */
  function NewBroadcastIntended(number: Number): (r: Result<Pgn>)
    ensures r.Err? <==> number.format < 240
    ensures r.Ok? ==> r.value == PgnNew(number) && r.value.Broadcast?
  {
    if number.format >= 240 then Ok(Broadcast(number)) else Err
  }

  /** `Pgn::to_bits`: the bits of the inner number, whichever the variant. */
  function PgnToBits(p: Pgn): (r: u32)
    ensures r == NumberToBits(p.number)
  {
    match p
    case Broadcast(v) => NumberToBits(v)
    case Destination(v) => NumberToBits(v)
  }
}
