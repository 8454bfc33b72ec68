/** The crate root's own identifier types: the same SAE J1939-21 layout as
    module Identifier, with the PGN fields stored flat in the identifier. */
module FlatIdentifier {
  import opened Prim
  import ParameterGroup
  import Identifier

  /** 11-bit standard identifier. */
  datatype IdStandard = IdStandard(priority: u8, sourceAddress: u8)

  /** `IdStandard::to_bits`: `priority << 8 | source_address`, with the
      asserted `priority < 8` as precondition; it agrees with `StandardId::to_bits`. */
  function IdStandardToBits(id: IdStandard): (raw: u16)
    requires id.priority < 8
    ensures raw < 0x800
    ensures raw == Identifier.StandardToBits(Identifier.StandardId(id.sourceAddress, id.priority))
  {
    var p := id.priority as u16;
    var sa := id.sourceAddress as u16;
    (p << 8) | sa
  }

  /** `IdStandard::new`: priority `(raw >> 8) as u8` (asserted below 8),
      source address `raw as u8`; encoding the result gives back `raw`. */
  function IdStandardNew(raw: u16): (id: IdStandard)
    requires U16AsU8(raw >> 8) < 8
    ensures id.priority < 8
    ensures IdStandardToBits(id) == raw
  {
    var priority := U16AsU8(raw >> 8);
    var sourceAddress := U16AsU8(raw);
    IdStandard(priority, sourceAddress)
  }

  /** Decoding an encoded standard identifier gives back every field. */
  lemma IdStandardDecodeEncode(id: IdStandard)
    requires id.priority < 8
    ensures IdStandardNew(IdStandardToBits(id)) == id
  {
  }

  /** The flat and the nested standard decoders split a raw identifier alike. */
  lemma IdStandardAgrees(raw: u16)
    requires raw < 0x800
    ensures IdStandardNew(raw).priority == Identifier.StandardNew(raw).priority
    ensures IdStandardNew(raw).sourceAddress == Identifier.StandardNew(raw).sourceAddress
  {
    Identifier.StandardNewDefinedIff(raw);
  }

  /** 29-bit extended identifier with its PGN fields inline. */
  datatype IdExtended = IdExtended(
    priority: u8,
    extDataPage: bool,
    dataPage: bool,
    pduFormat: u8,
    pduSpecific: u8,
    sourceAddress: u8)

  /** The nested identifier whose fields are those of a flat one. */
  function Nest(id: IdExtended): Identifier.ExtendedId {
    Identifier.ExtendedId(
      id.sourceAddress,
      ParameterGroup.Number(id.pduSpecific, id.pduFormat, id.dataPage, id.extDataPage),
      id.priority)
  }

  /** `IdExtended::to_bits`, laid out per SAE J1939-21 Table 1:
      `p << 26 | edp << 25 | dp << 24 | pf << 16 | ps << 8 | sa`, with the
      asserted `priority < 8` as precondition. */
  function IdExtendedToBits(id: IdExtended): (raw: u32)
    requires id.priority < 8
    ensures raw < 0x2000_0000
    ensures raw == Identifier.ExtendedToBits(Nest(id))
  {
    var p := id.priority as u32;
    var edp := BoolAsU32(id.extDataPage);
    var dp := BoolAsU32(id.dataPage);
    var pf := id.pduFormat as u32;
    var ps := id.pduSpecific as u32;
    var sa := id.sourceAddress as u32;
    (p << 26) | (edp << 25) | (dp << 24) | (pf << 16) | (ps << 8) | sa
  }

  /** `IdExtended::new`: the six fields of SAE J1939-21 Table 1 (priority
      asserted below 8); encoding the result gives back `raw`. */
  function IdExtendedNew(raw: u32): (id: IdExtended)
    requires U32AsU8(raw >> 26) < 8
    ensures id.priority < 8
    ensures IdExtendedToBits(id) == raw
  {
    var priority := U32AsU8(raw >> 26);
    var extDataPage := (raw >> 25) & 1 != 0;
    var dataPage := (raw >> 24) & 1 != 0;
    var pduFormat := U32AsU8(raw >> 16);
    var pduSpecific := U32AsU8(raw >> 8);
    var sourceAddress := U32AsU8(raw);
    IdExtended(priority, extDataPage, dataPage, pduFormat, pduSpecific, sourceAddress)
  }

  /** Decoding an encoded extended identifier gives back every field. */
  lemma IdExtendedDecodeEncode(id: IdExtended)
    requires id.priority < 8
    ensures IdExtendedNew(IdExtendedToBits(id)) == id
  {
  }

  /** The flat and the nested decoders split a raw identifier the same way. */
  lemma IdExtendedAgrees(raw: u32)
    requires raw < 0x2000_0000
    ensures Nest(IdExtendedNew(raw)) == Identifier.ExtendedNew(raw)
  {
    Identifier.ExtendedNewDefinedIff(raw);
  }

  /** The worked examples of the crate root's unit tests. */
  lemma FlatIdentifierExamples()
    ensures IdStandardNew(0x6FE) == IdStandard(6, 0xFE)
    ensures IdStandardToBits(IdStandard(6, 0xFE)) == 0x6FE
    ensures IdExtendedNew(0x0CF0_04FE) == IdExtended(3, false, false, 0xF0, 0x04, 0xFE)
    ensures IdExtendedToBits(IdExtended(3, false, false, 0xF0, 0x04, 0xFE)) == 0x0CF0_04FE
    ensures IdExtendedToBits(IdExtended(6, false, false, 0xF1, 0x22, 0xFE)) == 0x18F1_22FE
  {
  }
}
