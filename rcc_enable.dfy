/**
 * Peripheral clock enable, low-power clock enable and reset through the RCC
 * (src/rcc/enable.rs).
 *
 * The `bus!` macro gives every peripheral six identifiers: the enable
 * register and its field, the low-power enable register and its field, the
 * reset register and its field. Here they form one table, `Table`, and the
 * RCC is a class holding the current set of set fields of every register.
 * Each operation is one read-modify-write of one field (reset is two).
 */
module RccEnable {

  datatype Bus = Ahb1 | Ahb2 | Apb1 | Apb2

  datatype RegisterKind = Enr | LpEnr | Rstr

  /** An RCC register: `ahb1enr` is `RccRegister(Ahb1, Enr)`, `apb2lpenr` is `RccRegister(Apb2, LpEnr)`. */
  datatype RccRegister = RccRegister(bus: Bus, kind: RegisterKind)

  /** A register field by its PAC name, such as "gpioaen". */
  type Field = string

  /** For each RCC register, the names of the fields currently set. */
  type RegisterFile = map<RccRegister, set<Field>>

  /** Every RCC register is present. */
  ghost predicate Total(s: RegisterFile) {
    forall r: RccRegister :: r in s
  }

  predicate IsSet(s: RegisterFile, r: RccRegister, f: Field) {
    r in s && f in s[r]
  }

  /** `modify(|_, w| w.f().set_bit())` on register `r`: sets `f` and no other field of any register. */
  function SetBit(s: RegisterFile, r: RccRegister, f: Field): (t: RegisterFile)
    requires r in s
    ensures t.Keys == s.Keys
    ensures forall r', f' :: IsSet(t, r', f') <==> IsSet(s, r', f') || (r' == r && f' == f)
  {
    s[r := s[r] + {f}]
  }

  /** `modify(|_, w| w.f().clear_bit())` on register `r`: clears `f` and no other field of any register. */
  function ClearBit(s: RegisterFile, r: RccRegister, f: Field): (t: RegisterFile)
    requires r in s
    ensures t.Keys == s.Keys
    ensures forall r', f' :: IsSet(t, r', f') <==> IsSet(s, r', f') && (r' != r || f' != f)
  {
    s[r := s[r] - {f}]
  }

  /** Setting a field that is already set changes nothing. */
  lemma SetBitIdempotent(s: RegisterFile, r: RccRegister, f: Field)
    requires r in s
    ensures SetBit(SetBit(s, r, f), r, f) == SetBit(s, r, f)
  {
  }

  /** Clearing a field that was clear before it was set restores the whole register file. */
  lemma ClearAfterSetRestores(s: RegisterFile, r: RccRegister, f: Field)
    requires r in s && !IsSet(s, r, f)
    ensures ClearBit(SetBit(s, r, f), r, f) == s
  {
    assert s[r] + {f} - {f} == s[r];
  }

  /** Set-then-clear ends where a single clear would. */
  lemma SetThenClearIsClear(s: RegisterFile, r: RccRegister, f: Field)
    requires r in s
    ensures ClearBit(SetBit(s, r, f), r, f) == ClearBit(s, r, f)
  {
    assert s[r] + {f} - {f} == s[r] - {f};
  }

  datatype Peripheral =
    | Dma1 | Dma2
    | GpioA | GpioB | GpioC | GpioH | GpioD | GpioE | GpioF | GpioG | GpioI | GpioJ | GpioK
    | OtgFsDevice | OtgFsGlobal | OtgFsHost | OtgFsPwrclk
    | Spi1 | Spi2 | Spi3 | Spi4 | Spi5 | Spi6
    | I2c1 | I2c2 | I2c3
    | Usart1 | Usart2 | Usart6

  /** One `$PER => ($busenr, $peren, $buslpenr, $perlpen, $busrstr, $perrst)` line of `bus!`. */
  datatype BusEntry = BusEntry(
    enr: RccRegister, en: Field,
    lpenr: RccRegister, lpen: Field,
    rstr: RccRegister, rst: Field)

  const Ahb1Enr := RccRegister(Ahb1, Enr)
  const Ahb1LpEnr := RccRegister(Ahb1, LpEnr)
  const Ahb1Rstr := RccRegister(Ahb1, Rstr)
  const Ahb2Enr := RccRegister(Ahb2, Enr)
  const Ahb2LpEnr := RccRegister(Ahb2, LpEnr)
  const Ahb2Rstr := RccRegister(Ahb2, Rstr)
  const Apb1Enr := RccRegister(Apb1, Enr)
  const Apb1LpEnr := RccRegister(Apb1, LpEnr)
  const Apb1Rstr := RccRegister(Apb1, Rstr)
  const Apb2Enr := RccRegister(Apb2, Enr)
  const Apb2LpEnr := RccRegister(Apb2, LpEnr)
  const Apb2Rstr := RccRegister(Apb2, Rstr)

  /** The `bus!` table, every feature-gated block included. */
  function Table(p: Peripheral): (e: BusEntry)
    ensures e.enr.kind == Enr && e.lpenr.kind == LpEnr && e.rstr.kind == Rstr
    ensures e.lpenr.bus == e.enr.bus && e.rstr.bus == e.enr.bus
  {
    match p
    case Dma1 => BusEntry(Ahb1Enr, "dma1en", Ahb1LpEnr, "dma1lpen", Ahb1Rstr, "dma1rst")
    case Dma2 => BusEntry(Ahb1Enr, "dma2en", Ahb1LpEnr, "dma2lpen", Ahb1Rstr, "dma2rst")
    case GpioA => BusEntry(Ahb1Enr, "gpioaen", Ahb1LpEnr, "gpioalpen", Ahb1Rstr, "gpioarst")
    case GpioB => BusEntry(Ahb1Enr, "gpioben", Ahb1LpEnr, "gpioblpen", Ahb1Rstr, "gpiobrst")
    case GpioC => BusEntry(Ahb1Enr, "gpiocen", Ahb1LpEnr, "gpioclpen", Ahb1Rstr, "gpiocrst")
    case GpioH => BusEntry(Ahb1Enr, "gpiohen", Ahb1LpEnr, "gpiohlpen", Ahb1Rstr, "gpiohrst")
    case GpioD => BusEntry(Ahb1Enr, "gpioden", Ahb1LpEnr, "gpiodlpen", Ahb1Rstr, "gpiodrst")
    case GpioE => BusEntry(Ahb1Enr, "gpioeen", Ahb1LpEnr, "gpioelpen", Ahb1Rstr, "gpioerst")
    case GpioF => BusEntry(Ahb1Enr, "gpiofen", Ahb1LpEnr, "gpioflpen", Ahb1Rstr, "gpiofrst")
    case GpioG => BusEntry(Ahb1Enr, "gpiogen", Ahb1LpEnr, "gpioglpen", Ahb1Rstr, "gpiogrst")
    case GpioI => BusEntry(Ahb1Enr, "gpioien", Ahb1LpEnr, "gpioilpen", Ahb1Rstr, "gpioirst")
    case GpioJ => BusEntry(Ahb1Enr, "gpiojen", Ahb1LpEnr, "gpiojlpen", Ahb1Rstr, "gpiojrst")
    case GpioK => BusEntry(Ahb1Enr, "gpioken", Ahb1LpEnr, "gpioklpen", Ahb1Rstr, "gpiokrst")
    case OtgFsDevice => BusEntry(Ahb2Enr, "otgfsen", Ahb2LpEnr, "otgfslpen", Ahb2Rstr, "otgfsrst")
    case OtgFsGlobal => BusEntry(Ahb2Enr, "otgfsen", Ahb2LpEnr, "otgfslpen", Ahb2Rstr, "otgfsrst")
    case OtgFsHost => BusEntry(Ahb2Enr, "otgfsen", Ahb2LpEnr, "otgfslpen", Ahb2Rstr, "otgfsrst")
    case OtgFsPwrclk => BusEntry(Ahb2Enr, "otgfsen", Ahb2LpEnr, "otgfslpen", Ahb2Rstr, "otgfsrst")
    case Spi1 => BusEntry(Apb2Enr, "spi1en", Apb2LpEnr, "spi1lpen", Apb2Rstr, "spi1rst")
    case Spi2 => BusEntry(Apb1Enr, "spi2en", Apb1LpEnr, "spi2lpen", Apb1Rstr, "spi2rst")
    case Spi3 => BusEntry(Apb1Enr, "spi3en", Apb1LpEnr, "spi3lpen", Apb1Rstr, "spi3rst")
    case Spi4 => BusEntry(Apb2Enr, "spi4en", Apb2LpEnr, "spi4lpen", Apb2Rstr, "spi4rst")
    case Spi5 => BusEntry(Apb2Enr, "spi5en", Apb2LpEnr, "spi5lpen", Apb2Rstr, "spi5rst")
    case Spi6 => BusEntry(Apb2Enr, "spi6en", Apb2LpEnr, "spi6lpen", Apb2Rstr, "spi6rst")
    case I2c1 => BusEntry(Apb1Enr, "i2c1en", Apb1LpEnr, "i2c1lpen", Apb1Rstr, "i2c1rst")
    case I2c2 => BusEntry(Apb1Enr, "i2c2en", Apb1LpEnr, "i2c2lpen", Apb1Rstr, "i2c2rst")
    case I2c3 => BusEntry(Apb1Enr, "i2c3en", Apb1LpEnr, "i2c3lpen", Apb1Rstr, "i2c3rst")
    case Usart1 => BusEntry(Apb2Enr, "usart1en", Apb2LpEnr, "usart1lpen", Apb2Rstr, "usart1rst")
    case Usart2 => BusEntry(Apb1Enr, "usart2en", Apb1LpEnr, "usart2lpen", Apb1Rstr, "uart2rst")
    case Usart6 => BusEntry(Apb2Enr, "usart6en", Apb2LpEnr, "usart6lpen", Apb2Rstr, "usart6rst")
  }

  /** The bus each peripheral hangs off, as the chip documentation groups them. */
  function BusOf(p: Peripheral): Bus {
    if p.Dma1? || p.Dma2? || p.GpioA? || p.GpioB? || p.GpioC? || p.GpioD? || p.GpioE?
       || p.GpioF? || p.GpioG? || p.GpioH? || p.GpioI? || p.GpioJ? || p.GpioK? then Ahb1
    else if IsOtgFs(p) then Ahb2
    else if p.Spi1? || p.Spi4? || p.Spi5? || p.Spi6? || p.Usart1? || p.Usart6? then Apb2
    else Apb1
  }

  predicate IsOtgFs(p: Peripheral) {
    p.OtgFsDevice? || p.OtgFsGlobal? || p.OtgFsHost? || p.OtgFsPwrclk?
  }

  /**
   * Every table entry uses the enable, low-power enable and reset registers
   * of one bus, and that bus is the peripheral's.
   */
  lemma TableRegistersOnOwnBus(p: Peripheral)
    ensures Table(p).enr == RccRegister(BusOf(p), Enr)
    ensures Table(p).lpenr == RccRegister(BusOf(p), LpEnr)
    ensures Table(p).rstr == RccRegister(BusOf(p), Rstr)
  {
  }

  /** The four OTG_FS entries are the same six-tuple. */
  lemma OtgFsEntriesShared(p: Peripheral, q: Peripheral)
    requires IsOtgFs(p) && IsOtgFs(q)
    ensures Table(p) == Table(q)
  {
  }

  /** USART2's enable fields follow the usual naming; its reset field is `uart2rst`. */
  lemma Usart2ResetFieldName()
    ensures Table(Usart2) == BusEntry(Apb1Enr, "usart2en", Apb1LpEnr, "usart2lpen", Apb1Rstr, "uart2rst")
    ensures Table(Usart2).rst != "usart2rst"
  {
  }

  /** The peripheral's clock is enabled in register file `s`. */
  predicate IsEnabled(s: RegisterFile, p: Peripheral) {
    IsSet(s, Table(p).enr, Table(p).en)
  }

  /** Enabling `p` enables `q` exactly when `q` was already enabled or shares `p`'s enable field. */
  lemma EnableReaches(s: RegisterFile, p: Peripheral, q: Peripheral)
    requires Total(s)
    ensures IsEnabled(SetBit(s, Table(p).enr, Table(p).en), q)
      <==> IsEnabled(s, q) || (Table(q).enr == Table(p).enr && Table(q).en == Table(p).en)
  {
  }

  /** Enabling any one OTG_FS peripheral enables all four. */
  lemma OtgFsEnableShared(s: RegisterFile, p: Peripheral, q: Peripheral)
    requires Total(s) && IsOtgFs(p) && IsOtgFs(q)
    ensures IsEnabled(SetBit(s, Table(p).enr, Table(p).en), q)
  {
    OtgFsEntriesShared(p, q);
    EnableReaches(s, p, q);
  }

  /** The RCC register block. */
  class Rcc {
    var regs: RegisterFile
    /** The register file after each modify, oldest first. */
    ghost var history: seq<RegisterFile>

    ghost predicate Valid()
      reads this
    {
      Total(regs)
    }

    constructor (initial: RegisterFile)
      requires Total(initial)
      ensures Valid() && regs == initial && history == []
    {
      regs := initial;
      history := [];
    }

    /** `Enable::enable`: set the peripheral's enable field. */
    method Enable(p: Peripheral)
      requires Valid()
      modifies this
      ensures Valid()
      ensures regs == SetBit(old(regs), Table(p).enr, Table(p).en)
      ensures history == old(history) + [regs]
    {
      var e := Table(p);
      regs := SetBit(regs, e.enr, e.en);
      history := history + [regs];
    }

    /** `Enable::disable`: clear the peripheral's enable field. */
    method Disable(p: Peripheral)
      requires Valid()
      modifies this
      ensures Valid()
      ensures regs == ClearBit(old(regs), Table(p).enr, Table(p).en)
      ensures history == old(history) + [regs]
    {
      var e := Table(p);
      regs := ClearBit(regs, e.enr, e.en);
      history := history + [regs];
    }

    /** `LPEnable::low_power_enable`: set the peripheral's low-power enable field. */
    method LowPowerEnable(p: Peripheral)
      requires Valid()
      modifies this
      ensures Valid()
      ensures regs == SetBit(old(regs), Table(p).lpenr, Table(p).lpen)
      ensures history == old(history) + [regs]
    {
      var e := Table(p);
      regs := SetBit(regs, e.lpenr, e.lpen);
      history := history + [regs];
    }

    /** `LPEnable::low_power_disable`: clear the peripheral's low-power enable field. */
    method LowPowerDisable(p: Peripheral)
      requires Valid()
      modifies this
      ensures Valid()
      ensures regs == ClearBit(old(regs), Table(p).lpenr, Table(p).lpen)
      ensures history == old(history) + [regs]
    {
      var e := Table(p);
      regs := ClearBit(regs, e.lpenr, e.lpen);
      history := history + [regs];
    }

    /**
     * `Reset::reset`: two modifies of the reset register, the first setting
     * the peripheral's reset field, the second clearing it again.
     */
    method Reset(p: Peripheral)
      requires Valid()
      modifies this
      ensures Valid()
      ensures history == old(history) + [SetBit(old(regs), Table(p).rstr, Table(p).rst), regs]
      ensures IsSet(history[|history| - 2], Table(p).rstr, Table(p).rst)
      ensures regs == ClearBit(old(regs), Table(p).rstr, Table(p).rst)
    {
      var e := Table(p);
      regs := SetBit(regs, e.rstr, e.rst);
      history := history + [regs];
      SetThenClearIsClear(old(regs), e.rstr, e.rst);
      regs := ClearBit(regs, e.rstr, e.rst);
      history := history + [regs];
    }
  }
}
