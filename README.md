# SAE J1939 identifier, PGN and signal codec

A model of the codec core of the `sae-j1939` Rust crate: how it classifies raw
signal fields into data and sentinels (SAE J1939-71), how it splits 11-bit and
29-bit CAN identifiers into priority, parameter group number (PGN) and source
address and packs them back (SAE J1939-21 Table 1), how it tags a PGN as
destination-specific or broadcast, and how it builds protocol data units.

Every part of the core is a pure computation over value types, so the model is
datatypes, functions and lemmas:

- `prim.dfy` (module `Prim`): Rust's `u8`/`u16`/`u32` as `bv8`/`bv16`/`bv32`,
  so shifts, masks and `|` mean what they mean in Rust; the truncating
  `as u8` casts are written out as a mask followed by a narrowing; `Result`
  with an opaque error.
- `value.dfy` (modules `SignalValue`, `DiscreteValue`): `Signal<T>`, the nine
  `SignalN::new` classifiers with their match arms as written, and the
  two-bit `Parameter`/`Control` codes.
- `pgn.dfy` (module `ParameterGroup`): `Number`, its 18-bit packing, and the
  `Pgn` tagged union with its three constructors.
- `identifier.dfy` (module `Identifier`): `StandardId` and
  `ExtendedId`, decode (`new`) and encode (`to_bits`).
- `lib.dfy` (module `FlatIdentifier`): `IdStandard` and
  `IdExtended`, the crate root's flat-field copy of the same layout, proved to
  agree with module `Identifier`.
- `pdu.dfy` (module `DataUnit`): `ProtocolDataUnit`, its three
  constructors and accessors.

Each `assert!` that the source uses to panic becomes a `requires`: a caller
that does not panic is exactly a caller that meets it. The identifier type
imported in `src/identifier.rs:3` (`crate::ParameterGroupNumber`) is not
part of this model; its fields and packing are those of `pgn::Number`, which
is used in its place.

Two points about what the code does, rather than what one might expect:
- A uniform countdown rule (`CountdownRange`: the all-ones value is
  NotAvailable, the one below it Error, the next two Reserved, the next
  Indicator, the rest data) describes the 4-, 8- and 10-bit tables. From 12
  bits up each sentinel is a top-byte band (for 12 bits, Indicator is
  0xFB0–0xFBF), exactly as the 8-bit table classifies that byte. The contracts
  state both layouts.
- The doc comment of `Pgn::new_broadcast` (src/pgn.rs:32-34) and its name
  promise a `Broadcast` PGN; the code returns `Destination` (see Findings).

## Model

| member | source | states |
|---|---|---|
| `SignalValue.SignalDefault` | src/value.rs:8-16 | the default signal is `NotAvailable` |
| `SignalValue.Signal4New` | src/value.rs:22-33 | `Err` exactly when the input exceeds 0xF; otherwise the range is counted down from 0xF (0xF NotAvailable, 0xE Error, 0xC–0xD Reserved, 0xB Indicator, 0x0–0xA data), and `Value` carries the input unchanged |
| `SignalValue.Signal8New` | src/value.rs:40-50 | never `Err`; range counted down from 0xFF (0xFB Indicator, 0xFC–0xFD Reserved, 0xFE Error, 0xFF NotAvailable, the rest data); `Value` carries the input unchanged |
| `SignalValue.Signal10New` | src/value.rs:57-68 | `Err` exactly when the input exceeds 0x3FF; range counted down from 0x3FF (0x3FB Indicator, 0x3FC–0x3FD Reserved, 0x3FE Error, 0x3FF NotAvailable); `Value` carries the input unchanged |
| `SignalValue.Signal12New` | src/value.rs:75-86 | `Err` exactly when the input exceeds 0xFFF; otherwise the range is the one the 8-bit table gives the top byte (bits 11..4), whatever the low bits; `Value` carries the input unchanged |
| `SignalValue.Signal16New` | src/value.rs:93-103 | never `Err`; the range is the one the 8-bit table gives bits 15..8; `Value` carries the input unchanged |
| `SignalValue.Signal20New` | src/value.rs:110-121 | `Err` exactly when the input exceeds 0xFFFFF; range given by the 8-bit table on bits 19..12; `Value` carries the input unchanged |
| `SignalValue.Signal24New` | src/value.rs:128-139 | `Err` exactly when the input exceeds 0xFFFFFF; range given by the 8-bit table on bits 23..16; `Value` carries the input unchanged |
| `SignalValue.Signal28New` | src/value.rs:146-157 | `Err` exactly when the input exceeds 0xFFFFFFF; range given by the 8-bit table on bits 27..20; `Value` carries the input unchanged |
| `SignalValue.Signal32New` | src/value.rs:164-174 | never `Err`; range given by the 8-bit table on bits 31..24; `Value` carries the input unchanged |
| `SignalValue.DefaultIsAllOnes` | src/value.rs:8-16 | at every width the all-ones raw value decodes to the default signal |
| `SignalValue.TopByteDecides` | src/value.rs:93-174 | for 16 and 32 bits, two raw values with the same top byte fall in the same range |
| `SignalValue.SignalExamples` | src/value.rs:22-86 | 0xFF (8 bits) is NotAvailable, 0xFA (8 bits) is `Value(0xFA)`, 0xFB5 (12 bits) is Indicator, and edge cases of the 4-, 10- and 16-bit tables |
| `DiscreteValue.ParameterCode` | src/value.rs:181-187 | a parameter's code fits in two bits |
| `DiscreteValue.ParameterDefault` | src/value.rs:180-187 | the default parameter has code 0b11 |
| `DiscreteValue.ControlCode` | src/value.rs:193-202 | a control's code fits in two bits and is never the unused 0b10 |
| `DiscreteValue.ControlDefault` | src/value.rs:192-202 | the default control has code 0b11 |
| `DiscreteValue.CodesAreDistinct` | src/value.rs:181-202 | distinct states have distinct codes |
| `ParameterGroup.NumberToBits` | src/pgn.rs:59-66 | the packing is below 2^18, and specific (bits 7..0), format (bits 15..8), data page (bit 16) and extended data page (bit 17) can each be read back from it |
| `ParameterGroup.NumberDefault` | src/pgn.rs:50-56 | the default number packs to 0 |
| `ParameterGroup.NumberToBitsInjective` | src/pgn.rs:59-66 | numbers with equal packings are equal |
| `ParameterGroup.PgnNew` | src/pgn.rs:15-20 | the number is carried unchanged, and the PGN is `Destination` exactly when the format is below 240 |
| `ParameterGroup.NewDestination` | src/pgn.rs:25-30 | `Ok` exactly when the format is below 240, and then the same `Destination` PGN as `Pgn::new` |
| `ParameterGroup.NewBroadcast` | src/pgn.rs:35-40 | as written: `Err` exactly when the format is below 240, and on success `Destination(number)` |
| `ParameterGroup.NewBroadcastMislabels` | src/pgn.rs:35-40 | for every accepted number the result is not a `Broadcast` PGN and differs from `Pgn::new` |
| `ParameterGroup.NewBroadcastIntended` | src/pgn.rs:32-40 | corrected: `Err` exactly when the format is below 240, otherwise the `Broadcast` PGN that `Pgn::new` gives |
| `ParameterGroup.PgnToBits` | src/pgn.rs:42-47 | the bits of the inner number, for either variant |
| `Identifier.StandardToBits` | src/identifier.rs:27-34 | requires priority < 8; the result is below 0x800, its low byte is the source address and bits 10..8 the priority |
| `Identifier.StandardNew` | src/identifier.rs:15-24 | requires the extracted priority below 8; the priority is below 8 and encoding the result gives back the raw value |
| `Identifier.StandardNewDefinedIff` | src/identifier.rs:15-18 | `new` panics exactly when the raw value is 0x800 or more |
| `Identifier.StandardDecodeEncode` | src/identifier.rs:15-34 | decoding an encoded identifier gives back every field |
| `Identifier.StandardToBitsOnto` | src/identifier.rs:15-34 | every raw value below 0x800 is the encoding of some identifier |
| `Identifier.ExtendedToBits` | src/identifier.rs:78-86 | requires priority < 8; the result is below 2^29, bits 28..26 are the priority, bits 25..8 the PGN's packing and bits 7..0 the source address |
| `Identifier.ExtendedNew` | src/identifier.rs:56-75 | requires the extracted priority below 8; the priority is below 8 and encoding the result gives back the raw value |
| `Identifier.ExtendedNewDefinedIff` | src/identifier.rs:56-58 | `new` panics exactly when the raw value is 0x20000000 or more |
| `Identifier.ExtendedDecodeEncode` | src/identifier.rs:56-86 | decoding an encoded identifier gives back every field, PGN included |
| `Identifier.ExtendedToBitsOnto` | src/identifier.rs:56-86 | every raw value below 2^29 is the encoding of some identifier |
| `Identifier.IdentifierExamples` | src/identifier.rs:101-157 | 0x6FE is {6, 0xFE} both ways; 0x0CF004FE is {3, F0, 04, FE} both ways; {6, F1, 22, FE} encodes to 0x18F122FE |
| `FlatIdentifier.IdStandardToBits` | src/lib.rs:24-30 | requires priority < 8; the result is below 0x800 and equals `StandardId::to_bits` of the identifier with the same fields |
| `FlatIdentifier.IdStandardNew` | src/lib.rs:12-21 | requires the extracted priority below 8; encoding the result gives back the raw value |
| `FlatIdentifier.IdStandardDecodeEncode` | src/lib.rs:12-30 | decoding an encoded identifier gives back every field |
| `FlatIdentifier.IdStandardAgrees` | src/lib.rs:12-21 | below 0x800 the flat decoder yields the same priority and source address as `StandardId::new` |
| `FlatIdentifier.IdExtendedToBits` | src/lib.rs:65-76 | requires priority < 8; the result is below 2^29 and equals `ExtendedId::to_bits` of the identifier with the same priority, source address and PGN fields |
| `FlatIdentifier.IdExtendedNew` | src/lib.rs:45-62 | requires the extracted priority below 8; encoding the result gives back the raw value |
| `FlatIdentifier.IdExtendedDecodeEncode` | src/lib.rs:45-76 | decoding an encoded identifier gives back every field, so each field of Table 1 can be read back from the bits |
| `FlatIdentifier.IdExtendedAgrees` | src/lib.rs:45-62 | below 2^29 the flat decoder splits a raw value into the same fields as `ExtendedId::new` |
| `FlatIdentifier.FlatIdentifierExamples` | src/lib.rs:84-136 | the same three test vectors hold for the flat types |
| `DataUnit.NewUnchecked` | src/pdu.rs:13-19 | the accessors return both bytes as given, and the unit is broadcast exactly when the format is 240 or more |
| `DataUnit.AccessorsRecoverFields` | src/pdu.rs:49-61 | the accessors `ProtocolDataUnit.Format`, `ProtocolDataUnit.Specific` and `ProtocolDataUnit.Broadcast` (`format()`, `specific()`, `broadcast()`) return the stored fields |
| `DataUnit.NewBroadcast` | src/pdu.rs:22-33 | as written: callable without panic only for a format above 239, and then always `Err` |
| `DataUnit.NewBroadcastRefusesBroadcastFormats` | src/pdu.rs:22-33 | every broadcast format (240 or more) gets `Err`, so the unit `new_unchecked` would build is never returned |
| `DataUnit.NewBroadcastIntended` | src/pdu.rs:21-33 | corrected: `Err` exactly when the format is below 240, otherwise the broadcast unit `new_unchecked` builds |
| `DataUnit.NewAddressable` | src/pdu.rs:36-46 | as written: `Err` exactly when the format is below 240; on `Ok` the destination is stored and the broadcast flag is clear |
| `DataUnit.NewAddressableContradictsUnchecked` | src/pdu.rs:13-46 | every unit it builds has the opposite broadcast flag to `new_unchecked`, and it refuses every format `new_unchecked` calls addressable |
| `DataUnit.NewAddressableIntended` | src/pdu.rs:35-46 | corrected: `Ok` exactly when the format is below 240, and then the addressable unit `new_unchecked` builds |
| `DataUnit.IntendedConstructorsPartition` | src/pdu.rs:13-46 | with the corrected checks each format admits exactly one checked constructor, the one matching `new_unchecked`'s flag |

## Left out

- The `From<bxcan::StandardId>` and `From<bxcan::ExtendedId>` adapters (src/identifier.rs:37-42, 89-94): they forward a raw value from an external CAN driver crate that is not part of this model; `StandardNew`/`ExtendedNew` are what they call.
- The `SignalRange` trait (src/value.rs:4-6): declared but implemented by no type; the inherent `new` functions are modelled directly.
- Encoding a `Signal` back to raw bits, and PGN `destination_address`/`broadcast_group_extension` accessors: the code has none, so none is modelled; the round trips proved are those of the identifier transforms.
- Panics are not values in the model: each `assert!` is a precondition, and the lemmas `StandardNewDefinedIff` and `ExtendedNewDefinedIff` state which raw values trigger it.
- Error messages, and the `Debug`, `Clone`, `Copy` and `PartialEq` derives: an error is an opaque `Err`; equality is Dafny's structural equality.
- Crate wiring (`#![no_std]`, module declarations, the unresolved `crate::ParameterGroupNumber` import): `pgn::Number` stands in for that type.

## Findings

| source | as written | input that shows it | evidently intended | confidence | as-written member | corrected member |
|---|---|---|---|---|---|---|
| src/pgn.rs:35-40 | `new_broadcast` returns `Ok(Pgn::Destination(number))` for a format of 240 or more | format 0xF0: the result is `Destination`, while `Pgn::new` gives `Broadcast` | `Ok(Pgn::Broadcast(number))` | high; not executed | `ParameterGroup.NewBroadcastMislabels` | `ParameterGroup.NewBroadcastIntended` |
| src/pdu.rs:22-33 | `new_broadcast` returns `Err` for a format above 239 and then asserts `format >= 240`, which fails for every remaining format | format 0xF0 gives `Err`; format 0x10 panics; no input gives `Ok` | `Err` for a format below 240, otherwise a broadcast unit | high; not executed | `DataUnit.NewBroadcastRefusesBroadcastFormats` | `DataUnit.NewBroadcastIntended` |
| src/pdu.rs:36-46 | `new_addressable` returns `Err` for a format below 240 and builds an addressable unit for 240 and above | format 0x10 gives `Err`; format 0xF0 gives a unit whose broadcast flag is clear although `new_unchecked` sets it | `Err` for a format of 240 or more, otherwise an addressable unit | high; not executed | `DataUnit.NewAddressableContradictsUnchecked` | `DataUnit.NewAddressableIntended` |
