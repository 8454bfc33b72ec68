/** Protocol data units: a PDU format byte, a PDU specific byte, and whether
    the unit is broadcast (SAE J1939-21: format 240 and above is broadcast). */
module DataUnit {
  import opened Prim

  /** `ProtocolDataUnit`; its fields are private and read through the accessors. */
  datatype ProtocolDataUnit = ProtocolDataUnit(format: u8, specific: u8, broadcast: bool) {

    /** PDU format byte. */
    function Format(): u8 { format }

    /** PDU specific byte. */
    function Specific(): u8 { specific }

    /** Whether the unit is formatted to be broadcast. */
    function Broadcast(): bool { broadcast }
  }

  /** `ProtocolDataUnit::new_unchecked`: keeps both bytes and marks the unit
      broadcast exactly when the format is above 239. */
  function NewUnchecked(format: u8, specific: u8): (pdu: ProtocolDataUnit)
    ensures pdu.Format() == format && pdu.Specific() == specific
    ensures pdu.Broadcast() <==> format >= 240
  {
    ProtocolDataUnit(format, specific, format > 239)
  }

  /** The accessors give back what a constructor stored. */
  lemma AccessorsRecoverFields(format: u8, specific: u8, broadcast: bool)
    ensures ProtocolDataUnit(format, specific, broadcast).Format() == format
    ensures ProtocolDataUnit(format, specific, broadcast).Specific() == specific
    ensures ProtocolDataUnit(format, specific, broadcast).Broadcast() == broadcast
  {
  }

  /** `ProtocolDataUnit::new_broadcast` as written. It returns `Err` for a
      format above 239, and for any other format the following
      `assert!(format >= 240)` panics, so a caller that does not panic must
      pass a format above 239: that is the precondition, and the result is
      then always `Err`. */
  function NewBroadcast(format: u8, groupExtension: u8): (r: Result<ProtocolDataUnit>)
    requires format > 239
    ensures r.Err?
  {
    if format > 239 then Err
    else Ok(ProtocolDataUnit(format, groupExtension, true))
  }

  /** The defect in `new_broadcast`: even a broadcast format (240 or more),
      the one kind of format a broadcast unit may have, is refused. */
  lemma NewBroadcastRefusesBroadcastFormats(format: u8, groupExtension: u8)
    requires format >= 240
    ensures NewBroadcast(format, groupExtension).Err?
    ensures NewBroadcast(format, groupExtension) != Ok(NewUnchecked(format, groupExtension))
  {
  }

  /** `new_broadcast` as its name and error message intend: refuse a format
      below 240, otherwise build the same unit as `new_unchecked`. */
  function NewBroadcastIntended(format: u8, groupExtension: u8): (r: Result<ProtocolDataUnit>)
    ensures r.Err? <==> format < 240
    ensures r.Ok? ==> r.value == NewUnchecked(format, groupExtension) && r.value.Broadcast()
  {
    if format < 240 then Err
    else Ok(ProtocolDataUnit(format, groupExtension, true))
  }

  /** `ProtocolDataUnit::new_addressable` as written: refuses a format below
      240, and otherwise stores the destination with the broadcast flag clear. */
  function NewAddressable(format: u8, destination: u8): (r: Result<ProtocolDataUnit>)
    ensures r.Err? <==> format < 240
    ensures r.Ok? ==> r.value.Format() == format && r.value.Specific() == destination
    ensures r.Ok? ==> !r.value.Broadcast()
  {
    if format < 240 then Err
    else Ok(ProtocolDataUnit(format, destination, false))
  }

  /** The defect in `new_addressable`: every unit it builds disagrees with
      `new_unchecked` on the broadcast flag, and it refuses every format that
      `new_unchecked` would mark addressable. */
  lemma NewAddressableContradictsUnchecked(format: u8, destination: u8)
    ensures NewAddressable(format, destination).Ok? ==>
      NewAddressable(format, destination).value.Broadcast() != NewUnchecked(format, destination).Broadcast()
    ensures !NewUnchecked(format, destination).Broadcast() ==> NewAddressable(format, destination).Err?
  {
  }

  /** `new_addressable` as its name and error message intend: refuse a
      format of 240 or more, otherwise build the same unit as `new_unchecked`. */
  function NewAddressableIntended(format: u8, destination: u8): (r: Result<ProtocolDataUnit>)
    ensures r.Ok? <==> format < 240
    ensures r.Ok? ==> r.value == NewUnchecked(format, destination) && !r.value.Broadcast()
  {
    if format < 240 then Ok(ProtocolDataUnit(format, destination, false))
    else Err
  }

  /** With the intended checks, every format byte admits exactly one of the
      two checked constructors, and it is the one `new_unchecked` agrees with. */
  lemma IntendedConstructorsPartition(format: u8, specific: u8)
    ensures NewBroadcastIntended(format, specific).Ok? != NewAddressableIntended(format, specific).Ok?
    ensures NewBroadcastIntended(format, specific).Ok? <==> NewUnchecked(format, specific).Broadcast()
  {
  }
}
