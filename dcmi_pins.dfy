/**
 * Pin capabilities of the DCMI and the two pin bundles built from them
 * (src/dcmi/traits.rs).
 *
 * In the HAL each DCMI signal role is a marker trait, and a GPIO pin type
 * implements that trait only in alternate-function mode AF13. Here the
 * marker impls become the finite set Tags and the relation Capable(pin,
 * role) that agrees with it; the trait
 * bounds on the bundle constructors become subset types whose membership
 * demands the matching capability for every slot.
 */
module DcmiPins {
  import opened Wrappers

  datatype Port = A | B | C | D | E | F | G | H | I

  type PinNumber = n: nat | n < 16

  type AltFunction = n: nat | n < 16

  /** The mode a GPIO pin has been configured into. */
  datatype PinMode = Input | Output | Analog | Alternate(af: AltFunction)

  datatype Pin = Pin(port: Port, number: PinNumber, mode: PinMode)

  /** The alternate function that routes a pin to the DCMI. */
  const DcmiAf: AltFunction := 13

  type DataLine = k: nat | k < 14

  /** The 17 signal roles: D0..D13, HSYNC, VSYNC and PIXCLK. */
  datatype Role = Data(line: DataLine) | HSync | VSync | PixClk

  /** One `impl DcmiXxx for Pxn<Alternate<AF13>>` line. */
  datatype Tag = Tag(port: Port, number: PinNumber, role: Role)

  /** Every marker impl of traits.rs, in source order. */
  const Tags: set<Tag> := {
    Tag(A, 4, HSync), Tag(A, 6, PixClk), Tag(H, 8, HSync), Tag(B, 7, VSync), Tag(I, 5, VSync),
    Tag(A, 9, Data(0)), Tag(C, 6, Data(0)), Tag(H, 9, Data(0)),
    Tag(A, 10, Data(1)), Tag(C, 7, Data(1)), Tag(H, 10, Data(1)),
    Tag(C, 8, Data(2)), Tag(E, 0, Data(2)), Tag(H, 11, Data(2)),
    Tag(C, 9, Data(3)), Tag(E, 1, Data(3)), Tag(H, 12, Data(3)),
    Tag(C, 11, Data(4)), Tag(E, 4, Data(4)), Tag(H, 14, Data(4)),
    Tag(B, 6, Data(5)), Tag(I, 4, Data(5)),
    Tag(B, 8, Data(6)), Tag(E, 5, Data(6)), Tag(I, 6, Data(6)),
    Tag(B, 9, Data(7)), Tag(E, 6, Data(7)), Tag(I, 7, Data(7)),
    Tag(C, 10, Data(8)), Tag(I, 1, Data(8)),
    Tag(C, 12, Data(9)), Tag(I, 2, Data(9)),
    Tag(B, 5, Data(10)), Tag(I, 3, Data(10)),
    Tag(D, 2, Data(11)), Tag(H, 15, Data(11)),
    Tag(F, 11, Data(12)),
    Tag(G, 15, Data(13)), Tag(I, 0, Data(13))
  }

  /**
   * A port-by-port reading of the same impl list: the role a
   * (port, number) carries in AF13, if any.
   */
  function RoleOf(port: Port, number: PinNumber): Option<Role> {
    match port
    case A => (if number == 4 then Some(HSync) else if number == 6 then Some(PixClk)
               else if number == 9 then Some(Data(0)) else if number == 10 then Some(Data(1)) else None)
    case B => (if number == 5 then Some(Data(10)) else if number == 6 then Some(Data(5))
               else if number == 7 then Some(VSync) else if number == 8 then Some(Data(6))
               else if number == 9 then Some(Data(7)) else None)
    case C => (if 6 <= number <= 9 then Some(Data(number - 6)) else if number == 10 then Some(Data(8))
               else if number == 11 then Some(Data(4)) else if number == 12 then Some(Data(9)) else None)
    case D => (if number == 2 then Some(Data(11)) else None)
    case E => (if number == 0 then Some(Data(2)) else if number == 1 then Some(Data(3))
               else if number == 4 then Some(Data(4)) else if number == 5 then Some(Data(6))
               else if number == 6 then Some(Data(7)) else None)
    case F => (if number == 11 then Some(Data(12)) else None)
    case G => (if number == 15 then Some(Data(13)) else None)
    case H => (if number == 8 then Some(HSync) else if 9 <= number <= 12 then Some(Data(number - 9))
               else if number == 14 then Some(Data(4)) else if number == 15 then Some(Data(11)) else None)
    case I => (if number == 0 then Some(Data(13)) else if 1 <= number <= 3 then Some(Data(number + 7))
               else if number == 4 then Some(Data(5)) else if number == 5 then Some(VSync)
               else if 6 <= number <= 7 then Some(Data(number)) else None)
  }

  /** The impl list and the port-by-port table agree, in both directions. */
  lemma TagsMatchRoleOf(port: Port, number: PinNumber, r: Role)
    ensures Tag(port, number, r) in Tags <==> RoleOf(port, number) == Some(r)
  {
  }

  /**
   * The pin type implements the marker trait of role `r`: the pin is in
   * AF13 and the port-by-port table gives it that role.
   */
  predicate Capable(p: Pin, r: Role)
  {
    p.mode == Alternate(DcmiAf) && RoleOf(p.port, p.number) == Some(r)
  }

  /** A pin is capable of a role exactly when its AF13 form has that impl. */
  lemma CapableIsImpl(p: Pin, r: Role)
    ensures Capable(p, r) <==> p.mode == Alternate(DcmiAf) && Tag(p.port, p.number, r) in Tags
  {
    TagsMatchRoleOf(p.port, p.number, r);
  }

  /** Each tagged pin appears in exactly one impl: a pin has at most one role. */
  lemma UniqueRole(p: Pin, r1: Role, r2: Role)
    requires Capable(p, r1) && Capable(p, r2)
    ensures r1 == r2
  {
  }

  /** A pin in any mode other than AF13 serves no role. */
  lemma OnlyAf13IsCapable(p: Pin, r: Role)
    requires p.mode != Alternate(DcmiAf)
    ensures !Capable(p, r)
  {
  }

  /** PA6 is the only pixel-clock pin. */
  lemma PixClkOnlyOnPA6(p: Pin)
    ensures Capable(p, PixClk) <==> p == Pin(A, 6, Alternate(DcmiAf))
  {
  }

  /** PF11 is the only D12 pin. */
  lemma Data12OnlyOnPF11(p: Pin)
    ensures Capable(p, Data(12)) <==> p == Pin(F, 11, Alternate(DcmiAf))
  {
  }

  /** The synchronisation bundle: HSYNC, VSYNC and PIXCLK pins, moved in. */
  datatype SignalPins = SignalPins(hsync: Pin, vsync: Pin, pixelClock: Pin)

  /** The trait bound `H: DcmiHSYNC, V: DcmiVSYNC, PXL: DcmiPIXCLK`. */
  predicate IsDcmiSignalPins(s: SignalPins)
    ensures IsDcmiSignalPins(s) ==> s.hsync != s.vsync && s.hsync != s.pixelClock && s.vsync != s.pixelClock
  {
    Capable(s.hsync, HSync) && Capable(s.vsync, VSync) && Capable(s.pixelClock, PixClk)
  }

  /** Signal bundles that satisfy `DcmiSignalPins`. */
  type DcmiSignalPins = s: SignalPins | IsDcmiSignalPins(s)
    witness SignalPins(Pin(A, 4, Alternate(13)), Pin(B, 7, Alternate(13)), Pin(A, 6, Alternate(13)))

  /** `SignalPins::new`: callable only with capable pins, and stores them unchanged. */
  function NewSignalPins(hsync: Pin, vsync: Pin, pixelClock: Pin): (s: DcmiSignalPins)
    requires Capable(hsync, HSync) && Capable(vsync, VSync) && Capable(pixelClock, PixClk)
    ensures s.hsync == hsync && s.vsync == vsync && s.pixelClock == pixelClock
  {
    SignalPins(hsync, vsync, pixelClock)
  }

  /** The 8-bit data bundle: exactly the slots D0..D7. */
  datatype DataPins = DataPins(d0: Pin, d1: Pin, d2: Pin, d3: Pin, d4: Pin, d5: Pin, d6: Pin, d7: Pin)

  /** The pin in slot `k` of a data bundle. */
  function Slot(d: DataPins, k: nat): Pin
    requires k < 8
  {
    match k
    case 0 => d.d0
    case 1 => d.d1
    case 2 => d.d2
    case 3 => d.d3
    case 4 => d.d4
    case 5 => d.d5
    case 6 => d.d6
    case _ => d.d7
  }

  /** The trait bound `Dk: DcmiDk` for every slot k in 0..7. */
  predicate IsDcmiDataPins(d: DataPins)
    ensures IsDcmiDataPins(d) ==> forall j, k :: 0 <= j < k < 8 ==> Slot(d, j) != Slot(d, k)
  {
    && Capable(d.d0, Data(0)) && Capable(d.d1, Data(1)) && Capable(d.d2, Data(2)) && Capable(d.d3, Data(3))
    && Capable(d.d4, Data(4)) && Capable(d.d5, Data(5)) && Capable(d.d6, Data(6)) && Capable(d.d7, Data(7))
  }

  /** In a valid data bundle, slot k holds a Dk-capable pin. */
  lemma SlotCapable(d: DataPins, k: nat)
    requires IsDcmiDataPins(d) && k < 8
    ensures Capable(Slot(d, k), Data(k))
  {
    match k
    case 0 => assert Slot(d, 0) == d.d0;
    case 1 => assert Slot(d, 1) == d.d1;
    case 2 => assert Slot(d, 2) == d.d2;
    case 3 => assert Slot(d, 3) == d.d3;
    case 4 => assert Slot(d, 4) == d.d4;
    case 5 => assert Slot(d, 5) == d.d5;
    case 6 => assert Slot(d, 6) == d.d6;
    case 7 => assert Slot(d, 7) == d.d7;
  }

  /** Data bundles that satisfy `DcmiDataPins`. */
  type DcmiDataPins = d: DataPins | IsDcmiDataPins(d)
    witness DataPins(Pin(C, 6, Alternate(13)), Pin(C, 7, Alternate(13)), Pin(C, 8, Alternate(13)),
                     Pin(C, 9, Alternate(13)), Pin(C, 11, Alternate(13)), Pin(B, 6, Alternate(13)),
                     Pin(B, 8, Alternate(13)), Pin(B, 9, Alternate(13)))

  /** `DataPins::new_for_8_bits`: callable only with D0..D7-capable pins, and stores them unchanged. */
  function NewDataPinsFor8Bits(d0: Pin, d1: Pin, d2: Pin, d3: Pin, d4: Pin, d5: Pin, d6: Pin, d7: Pin)
    : (d: DcmiDataPins)
    requires Capable(d0, Data(0)) && Capable(d1, Data(1)) && Capable(d2, Data(2)) && Capable(d3, Data(3))
    requires Capable(d4, Data(4)) && Capable(d5, Data(5)) && Capable(d6, Data(6)) && Capable(d7, Data(7))
    ensures Slot(d, 0) == d0 && Slot(d, 1) == d1 && Slot(d, 2) == d2 && Slot(d, 3) == d3
    ensures Slot(d, 4) == d4 && Slot(d, 5) == d5 && Slot(d, 6) == d6 && Slot(d, 7) == d7
  {
    DataPins(d0, d1, d2, d3, d4, d5, d6, d7)
  }

  /** Pins tagged D8..D13 exist, but none of them fits any slot of a data bundle. */
  lemma HighDataLinesNotInBundle(d: DataPins, k: nat, line: DataLine)
    requires IsDcmiDataPins(d)
    requires k < 8 && 8 <= line
    ensures !Capable(Slot(d, k), Data(line))
  {
    SlotCapable(d, k);
  }
}
