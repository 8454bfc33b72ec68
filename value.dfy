/** Signal values of SAE J1939-71: a raw field of 4 to 32 bits is either data
    or one of four sentinels (Indicator, Reserved, Error, NotAvailable). */
module SignalValue {
  import opened Prim

  /** A decoded signal field; its default is `NotAvailable`. */
  datatype Signal<T> = Value(value: T) | Indicator | Reserved | Error | NotAvailable

  /** `Signal::<T>::default()`. */
  function SignalDefault<T>(): (s: Signal<T>)
    ensures s == NotAvailable
  {
    NotAvailable
  }

  /** The five sub-ranges of a signal's raw value space, lowest first. */
  datatype Range = DataRange | IndicatorRange | ReservedRange | ErrorRange | NotAvailableRange

  /** The sub-range a decoded signal came from (the payload of `Value` is dropped). */
  function RangeOf<T>(s: Signal<T>): Range {
    match s
    case Value(_) => DataRange
    case Indicator => IndicatorRange
    case Reserved => ReservedRange
    case Error => ErrorRange
    case NotAvailable => NotAvailableRange
  }

  /** Reference layout counted down from the all-ones value: `d` is how far the
      raw value lies below it. The all-ones value is NotAvailable, the one below
      it Error, the next two Reserved, the next Indicator, and the rest data. */
  function CountdownRange(d: u32): Range {
    if d == 0 then NotAvailableRange
    else if d == 1 then ErrorRange
    else if d <= 3 then ReservedRange
    else if d == 4 then IndicatorRange
    else DataRange
  }

  /** `Signal4::new`: single-value sentinels at the top of a 4-bit field. */
  function Signal4New(value: u8): (r: Result<Signal<u8>>)
    ensures r.Err? <==> value > 0xF
    ensures r.Ok? ==> RangeOf(r.value) == CountdownRange((0xF - value) as u32)
    ensures r.Ok? && r.value.Value? ==> r.value.value == value
  {
    if value <= 0xA then Ok(Value(value))
    else if value == 0xB then Ok(Indicator)
    else if 0xC <= value <= 0xD then Ok(Reserved)
    else if value == 0xE then Ok(Error)
    else if value == 0xF then Ok(NotAvailable)
    else Err
  }

  /** `Signal8::new`: every byte is classified; sentinels are single values. */
  function Signal8New(value: u8): (r: Result<Signal<u8>>)
    ensures r.Ok?
    ensures RangeOf(r.value) == CountdownRange((0xFF - value) as u32)
    ensures r.value.Value? ==> r.value.value == value
  {
    if value <= 0xFA then Ok(Value(value))
    else if value == 0xFB then Ok(Indicator)
    else if 0xFC <= value <= 0xFD then Ok(Reserved)
    else if value == 0xFE then Ok(Error)
    else Ok(NotAvailable)
  }

  /** `Signal10::new`: single-value sentinels at the top of a 10-bit field. */
  function Signal10New(value: u16): (r: Result<Signal<u16>>)
    ensures r.Err? <==> value > 0x3FF
    ensures r.Ok? ==> RangeOf(r.value) == CountdownRange((0x3FF - value) as u32)
    ensures r.Ok? && r.value.Value? ==> r.value.value == value
  {
    if value <= 0x3FA then Ok(Value(value))
    else if value == 0x3FB then Ok(Indicator)
    else if 0x3FC <= value <= 0x3FD then Ok(Reserved)
    else if value == 0x3FE then Ok(Error)
    else if value == 0x3FF then Ok(NotAvailable)
    else Err
  }

  /** `Signal12::new`: sentinels are bands keyed on the top byte (bits 11..4),
      classified as `Signal8::new` classifies that byte. */
  function Signal12New(value: u16): (r: Result<Signal<u16>>)
    ensures r.Err? <==> value > 0xFFF
    ensures r.Ok? ==> RangeOf(r.value) == RangeOf(Signal8New(U16AsU8(value >> 4)).value)
    ensures r.Ok? && r.value.Value? ==> r.value.value == value
  {
    if value <= 0xFAF then Ok(Value(value))
    else if 0xFB0 <= value <= 0xFBF then Ok(Indicator)
    else if 0xFC0 <= value <= 0xFDF then Ok(Reserved)
    else if 0xFE0 <= value <= 0xFEF then Ok(Error)
    else if 0xFF0 <= value <= 0xFFF then Ok(NotAvailable)
    else Err
  }

  /** `Signal16::new`: total; bands keyed on the top byte (bits 15..8). */
  function Signal16New(value: u16): (r: Result<Signal<u16>>)
    ensures r.Ok?
    ensures RangeOf(r.value) == RangeOf(Signal8New(U16AsU8(value >> 8)).value)
    ensures r.value.Value? ==> r.value.value == value
  {
    if value <= 0xFAFF then Ok(Value(value))
    else if 0xFB00 <= value <= 0xFBFF then Ok(Indicator)
    else if 0xFC00 <= value <= 0xFDFF then Ok(Reserved)
    else if 0xFE00 <= value <= 0xFEFF then Ok(Error)
    else Ok(NotAvailable)
  }

  /** `Signal20::new`: bands keyed on the top byte (bits 19..12). */
  function Signal20New(value: u32): (r: Result<Signal<u32>>)
    ensures r.Err? <==> value > 0xFFFFF
    ensures r.Ok? ==> RangeOf(r.value) == RangeOf(Signal8New(U32AsU8(value >> 12)).value)
    ensures r.Ok? && r.value.Value? ==> r.value.value == value
  {
    if value <= 0xFAFFF then Ok(Value(value))
    else if 0xFB000 <= value <= 0xFBFFF then Ok(Indicator)
    else if 0xFC000 <= value <= 0xFDFFF then Ok(Reserved)
    else if 0xFE000 <= value <= 0xFEFFF then Ok(Error)
    else if 0xFF000 <= value <= 0xFFFFF then Ok(NotAvailable)
    else Err
  }

  /** `Signal24::new`: bands keyed on the top byte (bits 23..16). */
  function Signal24New(value: u32): (r: Result<Signal<u32>>)
    ensures r.Err? <==> value > 0xFFFFFF
    ensures r.Ok? ==> RangeOf(r.value) == RangeOf(Signal8New(U32AsU8(value >> 16)).value)
    ensures r.Ok? && r.value.Value? ==> r.value.value == value
  {
    if value <= 0xFAFFFF then Ok(Value(value))
    else if 0xFB0000 <= value <= 0xFBFFFF then Ok(Indicator)
    else if 0xFC0000 <= value <= 0xFDFFFF then Ok(Reserved)
    else if 0xFE0000 <= value <= 0xFEFFFF then Ok(Error)
    else if 0xFF0000 <= value <= 0xFFFFFF then Ok(NotAvailable)
    else Err
  }

  /** `Signal28::new`: bands keyed on the top byte (bits 27..20). */
  function Signal28New(value: u32): (r: Result<Signal<u32>>)
    ensures r.Err? <==> value > 0xFFFFFFF
    ensures r.Ok? ==> RangeOf(r.value) == RangeOf(Signal8New(U32AsU8(value >> 20)).value)
    ensures r.Ok? && r.value.Value? ==> r.value.value == value
  {
    if value <= 0xFAFFFFF then Ok(Value(value))
    else if 0xFB00000 <= value <= 0xFBFFFFF then Ok(Indicator)
    else if 0xFC00000 <= value <= 0xFDFFFFF then Ok(Reserved)
    else if 0xFE00000 <= value <= 0xFEFFFFF then Ok(Error)
    else if 0xFF00000 <= value <= 0xFFFFFFF then Ok(NotAvailable)
    else Err
  }

  /** `Signal32::new`: total; bands keyed on the top byte (bits 31..24). */
  function Signal32New(value: u32): (r: Result<Signal<u32>>)
    ensures r.Ok?
    ensures RangeOf(r.value) == RangeOf(Signal8New(U32AsU8(value >> 24)).value)
    ensures r.value.Value? ==> r.value.value == value
  {
    if value <= 0xFAFFFFFF then Ok(Value(value))
    else if 0xFB000000 <= value <= 0xFBFFFFFF then Ok(Indicator)
    else if 0xFC000000 <= value <= 0xFDFFFFFF then Ok(Reserved)
    else if 0xFE000000 <= value <= 0xFEFFFFFF then Ok(Error)
    else Ok(NotAvailable)
  }

  /** The default signal is what the all-ones raw value decodes to, at every width. */
  lemma DefaultIsAllOnes()
    ensures Signal4New(0xF) == Ok(SignalDefault())
    ensures Signal8New(0xFF) == Ok(SignalDefault())
    ensures Signal10New(0x3FF) == Ok(SignalDefault())
    ensures Signal12New(0xFFF) == Ok(SignalDefault())
    ensures Signal16New(0xFFFF) == Ok(SignalDefault())
    ensures Signal20New(0xF_FFFF) == Ok(SignalDefault())
    ensures Signal24New(0xFF_FFFF) == Ok(SignalDefault())
    ensures Signal28New(0xFFF_FFFF) == Ok(SignalDefault())
    ensures Signal32New(0xFFFF_FFFF) == Ok(SignalDefault())
  {
  }

  /** For 16 bits and wider, the low bits never change the sub-range: two
      raw values with the same top byte decode to the same sub-range. */
  lemma TopByteDecides(a32: u32, b32: u32, a16: u16, b16: u16)
    requires a32 >> 24 == b32 >> 24 && a16 >> 8 == b16 >> 8
    ensures RangeOf(Signal32New(a32).value) == RangeOf(Signal32New(b32).value)
    ensures RangeOf(Signal16New(a16).value) == RangeOf(Signal16New(b16).value)
  {
  }

  /** Decoded examples at the edges of the sub-ranges. */
  lemma SignalExamples()
    ensures Signal8New(0xFF) == Ok(NotAvailable)
    ensures Signal8New(0xFA) == Ok(Value(0xFA))
    ensures Signal12New(0xFB5) == Ok(Indicator)
    ensures Signal4New(0xA) == Ok(Value(0xA)) && Signal4New(0xB) == Ok(Indicator)
    ensures Signal4New(0x10) == Err
    ensures Signal10New(0x3FC) == Ok(Reserved) && Signal10New(0x400) == Err
    ensures Signal16New(0xFE12) == Ok(Error)
  {
  }
}

/** Two-bit discrete parameter states and control commands of SAE J1939-71
    Table 2, whose defaults are the all-ones code. */
module DiscreteValue {
  import opened Prim

  /** Transmitted states of a measured discrete parameter (SAE J1939-71 Table 2). */
  datatype Parameter = Disabled | Enabled | Error | NotAvailable

  /** `Parameter as u8`: the two-bit code on the wire. */
  function ParameterCode(p: Parameter): (code: u8)
    ensures code <= 0x3
  {
    match p
    case Disabled => 0x0
    case Enabled => 0x1
    case Error => 0x2
    case NotAvailable => 0x3
  }

  /** `Parameter::default()`. */
  function ParameterDefault(): (p: Parameter)
    ensures ParameterCode(p) == 0x3
  {
    NotAvailable
  }

  /** Transmitted control commands (SAE J1939-71 Table 2); code 0x2 is left unused. */
  datatype Control = Disable | Enable | NoAction

  /** `Control as u8`: the two-bit code on the wire. */
  function ControlCode(c: Control): (code: u8)
    ensures code <= 0x3 && code != 0x2
  {
    match c
    case Disable => 0x0
    case Enable => 0x1
    case NoAction => 0x3
  }

  /** Different states are sent as different codes, for both enumerations. */
  lemma CodesAreDistinct(p: Parameter, q: Parameter, c: Control, d: Control)
    ensures ParameterCode(p) == ParameterCode(q) ==> p == q
    ensures ControlCode(c) == ControlCode(d) ==> c == d
  {
  }

  /** `Control::default()`. */
  function ControlDefault(): (c: Control)
    ensures ControlCode(c) == 0x3
  {
    NoAction
  }
}
