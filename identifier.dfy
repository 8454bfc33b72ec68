/** CAN identifiers as SAE J1939-21 lays them out: the 11-bit standard form
    (priority, source address) and the 29-bit extended form (priority, PGN,
    source address). */
module Identifier {
  import opened Prim
  import opened ParameterGroup

  /** 11-bit standard identifier. */
  datatype StandardId = StandardId(sourceAddress: u8, priority: u8)

  /** `StandardId::to_bits`: priority in bits 10..8, source address in bits 7..0.
      The source asserts `priority < 8`; here that is the precondition. */
  function StandardToBits(id: StandardId): (raw: u16)
    requires id.priority < 8
    ensures raw < 0x800
    ensures U16AsU8(raw) == id.sourceAddress
    ensures raw >> 8 == id.priority as u16
  {
    var p := id.priority as u16;
    var sa := id.sourceAddress as u16;
    (p << 8) | sa
  }

  /** `StandardId::new`: priority is `(raw >> 8) as u8`, source address
      `raw as u8`. The source asserts the priority is below 8, which is the
      precondition here; encoding the result gives back `raw`. */
  function StandardNew(raw: u16): (id: StandardId)
    requires U16AsU8(raw >> 8) < 8
    ensures id.priority < 8
    ensures StandardToBits(id) == raw
  {
    var priority := U16AsU8(raw >> 8);
    var sourceAddress := U16AsU8(raw);
    StandardId(sourceAddress, priority)
  }

  /** `StandardId::new` panics exactly on the raw values that do not fit 11 bits. */
  lemma StandardNewDefinedIff(raw: u16)
    ensures U16AsU8(raw >> 8) < 8 <==> raw < 0x800
  {
  }

  /** Decoding an encoded standard identifier gives back every field. */
  lemma StandardDecodeEncode(id: StandardId)
    requires id.priority < 8
    ensures StandardNew(StandardToBits(id)) == id
  {
  }

  /** Every 11-bit value is the encoding of some standard identifier. */
  lemma StandardToBitsOnto(raw: u16)
    requires raw < 0x800
    ensures exists id: StandardId :: id.priority < 8 && StandardToBits(id) == raw
  {
    StandardNewDefinedIff(raw);
    var id := StandardNew(raw);
    assert id.priority < 8 && StandardToBits(id) == raw;
  }

  /** 29-bit extended identifier. */
  datatype ExtendedId = ExtendedId(sourceAddress: u8, pgn: Number, priority: u8)

  /** `ExtendedId::to_bits`: priority in bits 28..26, the PGN's 18 bits in
      bits 25..8, source address in bits 7..0. The source asserts
      `priority < 8`; here that is the precondition. */
  function ExtendedToBits(id: ExtendedId): (raw: u32)
    requires id.priority < 8
    ensures raw < 0x2000_0000
    ensures raw >> 26 == id.priority as u32
    ensures (raw >> 8) & 0x3_FFFF == NumberToBits(id.pgn)
    ensures U32AsU8(raw) == id.sourceAddress
  {
    var sa := id.sourceAddress as u32;
    var pgn := NumberToBits(id.pgn);
    var p := id.priority as u32;
    (p << 26) | (pgn << 8) | sa
  }

  /** `ExtendedId::new`: priority from bits 28..26, extended data page from
      bit 25, data page from bit 24, PDU format from bits 23..16, PDU specific
      from bits 15..8 and source address from bits 7..0. The source asserts
      the priority is below 8, which is the precondition here; encoding the
      result gives back `raw`. */
  function ExtendedNew(raw: u32): (id: ExtendedId)
    requires U32AsU8(raw >> 26) < 8
    ensures id.priority < 8
    ensures ExtendedToBits(id) == raw
  {
    var priority := U32AsU8(raw >> 26);
    var extDataPage := (raw >> 25) & 1 != 0;
    var dataPage := (raw >> 24) & 1 != 0;
    var pduFormat := U32AsU8(raw >> 16);
    var pduSpecific := U32AsU8(raw >> 8);
    var sourceAddress := U32AsU8(raw);
    ExtendedId(sourceAddress, Number(pduSpecific, pduFormat, dataPage, extDataPage), priority)
  }

  /** `ExtendedId::new` panics exactly on the raw values that do not fit 29 bits. */
  lemma ExtendedNewDefinedIff(raw: u32)
    ensures U32AsU8(raw >> 26) < 8 <==> raw < 0x2000_0000
  {
  }

  /** Decoding an encoded extended identifier gives back every field. */
  lemma ExtendedDecodeEncode(id: ExtendedId)
    requires id.priority < 8
    ensures ExtendedNew(ExtendedToBits(id)) == id
  {
  }

  /** Every 29-bit value is the encoding of some extended identifier. */
  lemma ExtendedToBitsOnto(raw: u32)
    requires raw < 0x2000_0000
    ensures exists id: ExtendedId :: id.priority < 8 && ExtendedToBits(id) == raw
  {
    ExtendedNewDefinedIff(raw);
    var id := ExtendedNew(raw);
    assert id.priority < 8 && ExtendedToBits(id) == raw;
  }

  /** The worked examples of the identifier module's unit tests. */
  lemma IdentifierExamples()
    ensures StandardNew(0x6FE) == StandardId(0xFE, 6)
    ensures StandardToBits(StandardId(0xFE, 6)) == 0x6FE
    ensures ExtendedNew(0x0CF0_04FE) == ExtendedId(0xFE, Number(0x04, 0xF0, false, false), 3)
    ensures ExtendedToBits(ExtendedId(0xFE, Number(0x04, 0xF0, false, false), 3)) == 0x0CF0_04FE
    ensures ExtendedToBits(ExtendedId(0xFE, Number(0x22, 0xF1, false, false), 6)) == 0x18F1_22FE
  {
  }
}
