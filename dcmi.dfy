/**
 * The DCMI configuration model and the capture-engine register protocol
 * (src/dcmi/mod.rs).
 *
 * The value layer (interrupt bit table, register encodings of the
 * configuration enums, the fluent configuration builder and its default)
 * is written as functions. The engine (`init`, `start`, `clear_interrupt`)
 * is a class that drives an abstract register block: CR as a record of
 * named fields, IER and ICR as bytes, and the DCMI clock-enable flag.
 */
module DcmiDriver {
  import opened Wrappers
  import opened DcmiPins

  // ---------------------------------------------------------------- interrupts

  datatype DcmiInterrupt = Line | Frame | Overrun | VSync | Error | All

  /** `DcmiInterrupt::bits`: the bit of each kind in IER/ICR; `All` covers the five. */
  function InterruptBits(k: DcmiInterrupt): (r: bv8)
    ensures r != 0 && r & !0x1F == 0
    ensures k != DcmiInterrupt.All <==> r & (r - 1) == 0
  {
    match k
    case Line => 0x10
    case VSync => 0x08
    case Error => 0x04
    case Overrun => 0x02
    case Frame => 0x01
    case All => 0x1F
  }

  /** `All` is exactly the bitwise OR of the five single kinds. */
  lemma AllIsUnionOfSingles()
    ensures InterruptBits(DcmiInterrupt.All)
         == InterruptBits(Line) | InterruptBits(DcmiInterrupt.VSync) | InterruptBits(Error)
          | InterruptBits(Overrun) | InterruptBits(Frame)
  {
  }

  /** The bit table of `DcmiInterrupt::bits`, kind by kind. */
  lemma InterruptBitsTable()
    ensures InterruptBits(Line) == 0x10 && InterruptBits(DcmiInterrupt.VSync) == 0x08
    ensures InterruptBits(Error) == 0x04 && InterruptBits(Overrun) == 0x02
    ensures InterruptBits(Frame) == 0x01 && InterruptBits(DcmiInterrupt.All) == 0x1F
  {
  }

  /** Two different single kinds never share a bit, and `All` contains every kind's bits. */
  lemma InterruptBitsDisjoint(k1: DcmiInterrupt, k2: DcmiInterrupt)
    ensures k1 != k2 && k1 != DcmiInterrupt.All && k2 != DcmiInterrupt.All
            ==> InterruptBits(k1) & InterruptBits(k2) == 0
    ensures InterruptBits(k1) & InterruptBits(DcmiInterrupt.All) == InterruptBits(k1)
  {
  }

  // ---------------------------------------------------------------- configuration enums

  datatype ExtendedDataMode = Bit8 | Bit10 | Bit12 | Bit14

  datatype FrameRateCaptureControl = All | EverySecond | EveryFourth

  datatype Polarity = ActiveHigh | ActiveLow

  datatype PixelClockPolarity = FallingEdge | RisingEdge

  datatype CaptureMode = Continuous | Snapshot

  /** `Into<u8> for ExtendedDataMode`: the 2-bit EDM code. */
  function EdmBits(m: ExtendedDataMode): (r: bv8)
    ensures r <= 3
  {
    match m
    case Bit8 => 0
    case Bit10 => 1
    case Bit12 => 2
    case Bit14 => 3
  }

  /** Reads an EDM code back; the partner of `EdmBits`. */
  function EdmFromBits(b: bv8): Option<ExtendedDataMode> {
    if b == 0 then Some(Bit8) else if b == 1 then Some(Bit10)
    else if b == 2 then Some(Bit12) else if b == 3 then Some(Bit14) else None
  }

  /** `EdmBits` is a bijection from the four widths onto {0, 1, 2, 3}. */
  lemma EdmBitsBijective(m: ExtendedDataMode, b: bv8)
    ensures EdmFromBits(EdmBits(m)) == Some(m)
    ensures EdmFromBits(b) == Some(m) <==> EdmBits(m) == b
    ensures EdmFromBits(b) == None <==> b > 3
  {
  }

  /** `Into<u8> for FrameRateCaptureControl`: the 2-bit FCRC code, never 0b11. */
  function FcrcBits(c: FrameRateCaptureControl): (r: bv8)
    ensures r <= 2
  {
    match c
    case All => 0
    case EverySecond => 1
    case EveryFourth => 2
  }

  /** Reads an FCRC code back; the partner of `FcrcBits`. */
  function FcrcFromBits(b: bv8): Option<FrameRateCaptureControl> {
    if b == 0 then Some(FrameRateCaptureControl.All) else if b == 1 then Some(EverySecond)
    else if b == 2 then Some(EveryFourth) else None
  }

  /** `FcrcBits` is a bijection from the three rates onto {0, 1, 2}; 3 has no rate. */
  lemma FcrcBitsBijective(c: FrameRateCaptureControl, b: bv8)
    ensures FcrcFromBits(FcrcBits(c)) == Some(c)
    ensures FcrcFromBits(b) == Some(c) <==> FcrcBits(c) == b
    ensures FcrcFromBits(b) == None <==> b > 2
  {
  }

  /** `Into<bool> for Polarity`. */
  function PolarityBit(p: Polarity): (b: bool)
    ensures b <==> p == ActiveHigh
  {
    match p
    case ActiveHigh => true
    case ActiveLow => false
  }

  /** `Into<bool> for PixelClockPolarity`. */
  function PixelClockPolarityBit(p: PixelClockPolarity): (b: bool)
    ensures b <==> p == RisingEdge
  {
    match p
    case RisingEdge => true
    case FallingEdge => false
  }

  /** `Into<bool> for CaptureMode`. */
  function CaptureModeBit(m: CaptureMode): (b: bool)
    ensures b <==> m == Snapshot
  {
    match m
    case Snapshot => true
    case Continuous => false
  }

  // ---------------------------------------------------------------- configuration builder

  /** `DcmiConfig`; `interruptRaw` is the OR of the attached interrupt kinds. */
  datatype DcmiConfig = DcmiConfig(
    extDataMode: ExtendedDataMode,
    frameCaptCtrl: FrameRateCaptureControl,
    verticalSyncPolarity: Polarity,
    horizontalSyncPolarity: Polarity,
    pixelClockPolarity: PixelClockPolarity,
    embeddedSync: bool,
    jpeg: bool,
    crop: bool,
    captureMode: CaptureMode,
    interruptRaw: bv8)

  /**
   * `impl Default for DcmiConfig`: no interrupts, and every setting is the
   * one whose CR encoding is zero.
   */
  function DefaultConfig(): (c: DcmiConfig)
    ensures c.interruptRaw == 0 && !CaptureModeBit(c.captureMode)
    ensures ConfiguredCr(c) == ResetCr
  {
    DcmiConfig(Bit8, FrameRateCaptureControl.All, ActiveLow, ActiveLow, FallingEdge,
               false, false, false, Continuous, 0)
  }

  /** The default agrees with the table documented above `impl Default`. */
  lemma DefaultIsDocumented()
    ensures var c := DefaultConfig();
      && EdmBits(c.extDataMode) == 0 && FcrcBits(c.frameCaptCtrl) == 0
      && !PolarityBit(c.verticalSyncPolarity) && !PolarityBit(c.horizontalSyncPolarity)
      && !PixelClockPolarityBit(c.pixelClockPolarity)
      && !c.embeddedSync && !c.jpeg && !c.crop
      && !CaptureModeBit(c.captureMode) && c.interruptRaw == 0
  {
  }

  function WithExtDataMode(c: DcmiConfig, m: ExtendedDataMode): (r: DcmiConfig)
    ensures r.extDataMode == m && r.(extDataMode := c.extDataMode) == c
  {
    c.(extDataMode := m)
  }

  function WithFrameCaptCtrl(c: DcmiConfig, f: FrameRateCaptureControl): (r: DcmiConfig)
    ensures r.frameCaptCtrl == f && r.(frameCaptCtrl := c.frameCaptCtrl) == c
  {
    c.(frameCaptCtrl := f)
  }

  function WithVerticalSyncPolarity(c: DcmiConfig, p: Polarity): (r: DcmiConfig)
    ensures r.verticalSyncPolarity == p && r.(verticalSyncPolarity := c.verticalSyncPolarity) == c
  {
    c.(verticalSyncPolarity := p)
  }

  function WithHorizontalSyncPolarity(c: DcmiConfig, p: Polarity): (r: DcmiConfig)
    ensures r.horizontalSyncPolarity == p && r.(horizontalSyncPolarity := c.horizontalSyncPolarity) == c
  {
    c.(horizontalSyncPolarity := p)
  }

  function WithPixelClockPolarity(c: DcmiConfig, p: PixelClockPolarity): (r: DcmiConfig)
    ensures r.pixelClockPolarity == p && r.(pixelClockPolarity := c.pixelClockPolarity) == c
  {
    c.(pixelClockPolarity := p)
  }

  function WithEmbeddedSync(c: DcmiConfig, on: bool): (r: DcmiConfig)
    ensures r.embeddedSync == on && r.(embeddedSync := c.embeddedSync) == c
  {
    c.(embeddedSync := on)
  }

  function WithJpeg(c: DcmiConfig, on: bool): (r: DcmiConfig)
    ensures r.jpeg == on && r.(jpeg := c.jpeg) == c
  {
    c.(jpeg := on)
  }

  function WithCrop(c: DcmiConfig, on: bool): (r: DcmiConfig)
    ensures r.crop == on && r.(crop := c.crop) == c
  {
    c.(crop := on)
  }

  function WithCaptureMode(c: DcmiConfig, m: CaptureMode): (r: DcmiConfig)
    ensures r.captureMode == m && r.(captureMode := c.captureMode) == c
  {
    c.(captureMode := m)
  }

  /** `attach_interrupt`: ORs the kind's bits into the mask; nothing else changes. */
  function AttachInterrupt(c: DcmiConfig, k: DcmiInterrupt): (r: DcmiConfig)
    ensures r.interruptRaw & InterruptBits(k) == InterruptBits(k)
    ensures r.interruptRaw & !InterruptBits(k) == c.interruptRaw & !InterruptBits(k)
    ensures r.(interruptRaw := c.interruptRaw) == c
  {
    c.(interruptRaw := c.interruptRaw | InterruptBits(k))
  }

  /** Attaching the same kind twice is the same as attaching it once. */
  lemma AttachIdempotent(c: DcmiConfig, k: DcmiInterrupt)
    ensures AttachInterrupt(AttachInterrupt(c, k), k) == AttachInterrupt(c, k)
  {
  }

  /** The order in which kinds are attached does not matter. */
  lemma AttachCommutes(c: DcmiConfig, k1: DcmiInterrupt, k2: DcmiInterrupt)
    ensures AttachInterrupt(AttachInterrupt(c, k1), k2) == AttachInterrupt(AttachInterrupt(c, k2), k1)
  {
  }

  /** The worked example of the builder: Frame then VSync gives 0x09; Frame twice gives 0x01. */
  lemma AttachExamples()
    ensures AttachInterrupt(AttachInterrupt(DefaultConfig(), Frame), DcmiInterrupt.VSync).interruptRaw == 0x09
    ensures AttachInterrupt(AttachInterrupt(DefaultConfig(), Frame), Frame).interruptRaw == 0x01
  {
  }

  /** One call of the fluent builder. */
  datatype BuilderStep =
    | SetExtDataMode(edm: ExtendedDataMode)
    | SetFrameCaptCtrl(fcrc: FrameRateCaptureControl)
    | SetVerticalSyncPolarity(vspol: Polarity)
    | SetHorizontalSyncPolarity(hspol: Polarity)
    | SetPixelClockPolarity(pckpol: PixelClockPolarity)
    | SetEmbeddedSync(ess: bool)
    | SetJpeg(jpeg: bool)
    | SetCrop(crop: bool)
    | SetCaptureMode(cm: CaptureMode)
    | Attach(kind: DcmiInterrupt)

  function ApplyStep(c: DcmiConfig, s: BuilderStep): DcmiConfig {
    match s
    case SetExtDataMode(m) => WithExtDataMode(c, m)
    case SetFrameCaptCtrl(f) => WithFrameCaptCtrl(c, f)
    case SetVerticalSyncPolarity(p) => WithVerticalSyncPolarity(c, p)
    case SetHorizontalSyncPolarity(p) => WithHorizontalSyncPolarity(c, p)
    case SetPixelClockPolarity(p) => WithPixelClockPolarity(c, p)
    case SetEmbeddedSync(on) => WithEmbeddedSync(c, on)
    case SetJpeg(on) => WithJpeg(c, on)
    case SetCrop(on) => WithCrop(c, on)
    case SetCaptureMode(m) => WithCaptureMode(c, m)
    case Attach(k) => AttachInterrupt(c, k)
  }

  /** Which configuration field a step writes (the mask counts as field 9). */
  function FieldOf(s: BuilderStep): nat {
    match s
    case SetExtDataMode(_) => 0
    case SetFrameCaptCtrl(_) => 1
    case SetVerticalSyncPolarity(_) => 2
    case SetHorizontalSyncPolarity(_) => 3
    case SetPixelClockPolarity(_) => 4
    case SetEmbeddedSync(_) => 5
    case SetJpeg(_) => 6
    case SetCrop(_) => 7
    case SetCaptureMode(_) => 8
    case Attach(_) => 9
  }

  /** Calls on different fields, and any two attaches, may be swapped. */
  lemma StepsCommute(c: DcmiConfig, s1: BuilderStep, s2: BuilderStep)
    requires FieldOf(s1) != FieldOf(s2) || (s1.Attach? && s2.Attach?)
    ensures ApplyStep(ApplyStep(c, s1), s2) == ApplyStep(ApplyStep(c, s2), s1)
  {
  }

  /** For a plain setter, the later call wins. */
  lemma LastSetterWins(c: DcmiConfig, s1: BuilderStep, s2: BuilderStep)
    requires FieldOf(s1) == FieldOf(s2) && !s2.Attach?
    ensures ApplyStep(ApplyStep(c, s1), s2) == ApplyStep(c, s2)
  {
  }

  /** Only an attach step touches the mask, and it ORs in the kind's bits. */
  lemma ApplyStepMask(c: DcmiConfig, s: BuilderStep)
    ensures s.Attach? ==> ApplyStep(c, s).interruptRaw == c.interruptRaw | InterruptBits(s.kind)
    ensures !s.Attach? ==> ApplyStep(c, s).interruptRaw == c.interruptRaw
  {
  }

  /** A configuration built by a chain of builder calls on the default. */
  function Build(steps: seq<BuilderStep>): DcmiConfig {
    if steps == [] then DefaultConfig()
    else ApplyStep(Build(steps[..|steps| - 1]), steps[|steps| - 1])
  }

  /** Reference definition of the mask: the OR of every attached kind's bits, first call first. */
  function AttachedMask(steps: seq<BuilderStep>): bv8 {
    if steps == [] then 0
    else if steps[0].Attach? then InterruptBits(steps[0].kind) | AttachedMask(steps[1..])
    else AttachedMask(steps[1..])
  }

  lemma {:induction false} AttachedMaskSnoc(steps: seq<BuilderStep>, s: BuilderStep)
    ensures s.Attach? ==> AttachedMask(steps + [s]) == AttachedMask(steps) | InterruptBits(s.kind)
    ensures !s.Attach? ==> AttachedMask(steps + [s]) == AttachedMask(steps)
  {
    if steps != [] {
      assert (steps + [s])[1..] == steps[1..] + [s];
      AttachedMaskSnoc(steps[1..], s);
    }
  }

  /** A built configuration's mask is the OR of exactly the kinds attached along the way. */
  lemma {:induction false} BuildMask(steps: seq<BuilderStep>)
    ensures Build(steps).interruptRaw == AttachedMask(steps)
  {
    if steps != [] {
      var init, last := steps[..|steps| - 1], steps[|steps| - 1];
      BuildMask(init);
      ApplyStepMask(Build(init), last);
      AttachedMaskSnoc(init, last);
      assert init + [last] == steps;
    }
  }

  lemma {:induction false} AttachedMaskWithin(steps: seq<BuilderStep>)
    ensures AttachedMask(steps) & !0x1F == 0
  {
    if steps != [] {
      AttachedMaskWithin(steps[1..]);
    }
  }

  /** Starting from the default, the mask never has bits outside 0x1F. */
  lemma BuildMaskWithin(steps: seq<BuilderStep>)
    ensures Build(steps).interruptRaw & !0x1F == 0
  {
    BuildMask(steps);
    AttachedMaskWithin(steps);
  }

  // ---------------------------------------------------------------- registers

  /**
   * DCMI_CR as named fields: the ten the driver writes, and `cm`, the
   * capture-mode bit, which no code of the driver writes.
   */
  datatype ControlRegister = ControlRegister(
    edm: bv2, fcrc: bv2, vspol: bool, hspol: bool, pckpol: bool,
    ess: bool, jpeg: bool, crop: bool, capture: bool, cm: bool, enable: bool)

  /** The value `cr.reset()` leaves: every field zero. */
  const ResetCr := ControlRegister(0, 0, false, false, false, false, false, false, false, false, false)

  /** A 2-bit field writer keeps the low two bits of the value it is given. */
  function Field2(v: bv8): bv2 {
    (v & 3) as bv2
  }

  /** The one configuration modify of `init`: writes the eight configuration fields of `cr`. */
  function ConfigureCr(cr: ControlRegister, c: DcmiConfig): ControlRegister
  {
    cr.(edm := Field2(EdmBits(c.extDataMode)), fcrc := Field2(FcrcBits(c.frameCaptCtrl)),
             vspol := PolarityBit(c.verticalSyncPolarity), hspol := PolarityBit(c.horizontalSyncPolarity),
             pckpol := PixelClockPolarityBit(c.pixelClockPolarity),
             ess := c.embeddedSync, jpeg := c.jpeg, crop := c.crop)
  }

  /**
   * The configuration modify writes each of its eight fields with the
   * encoding, unclipped, and leaves `capture`, `cm` and `enable` as they were.
   */
  lemma ConfigureCrWrites(cr: ControlRegister, c: DcmiConfig)
    ensures var r := ConfigureCr(cr, c);
      && r.edm as bv8 == EdmBits(c.extDataMode) && r.fcrc as bv8 == FcrcBits(c.frameCaptCtrl)
      && r.vspol == PolarityBit(c.verticalSyncPolarity) && r.hspol == PolarityBit(c.horizontalSyncPolarity)
      && r.pckpol == PixelClockPolarityBit(c.pixelClockPolarity)
      && r.ess == c.embeddedSync && r.jpeg == c.jpeg && r.crop == c.crop
      && r.capture == cr.capture && r.cm == cr.cm && r.enable == cr.enable
  {
  }

  /** CR after `init`: the reset value with the configuration modify applied. */
  function ConfiguredCr(c: DcmiConfig): (r: ControlRegister)
    ensures !r.capture && !r.cm && !r.enable
    ensures r.(edm := 0, fcrc := 0, vspol := false, hspol := false, pckpol := false,
               ess := false, jpeg := false, crop := false) == ResetCr
  {
    ConfigureCr(ResetCr, c)
  }

  /** The eight fields `init` writes to CR. */
  predicate SameCrSettings(c1: DcmiConfig, c2: DcmiConfig) {
    && c1.extDataMode == c2.extDataMode && c1.frameCaptCtrl == c2.frameCaptCtrl
    && c1.verticalSyncPolarity == c2.verticalSyncPolarity
    && c1.horizontalSyncPolarity == c2.horizontalSyncPolarity
    && c1.pixelClockPolarity == c2.pixelClockPolarity
    && c1.embeddedSync == c2.embeddedSync && c1.jpeg == c2.jpeg && c1.crop == c2.crop
  }

  /** The configured CR determines those eight fields, and depends on nothing else. */
  lemma ConfiguredCrFaithful(c1: DcmiConfig, c2: DcmiConfig)
    ensures ConfiguredCr(c1) == ConfiguredCr(c2) <==> SameCrSettings(c1, c2)
  {
    if ConfiguredCr(c1) == ConfiguredCr(c2) {
      ConfigureCrWrites(ResetCr, c1);
      ConfigureCrWrites(ResetCr, c2);
      EdmBitsBijective(c1.extDataMode, EdmBits(c2.extDataMode));
      FcrcBitsBijective(c1.frameCaptCtrl, FcrcBits(c2.frameCaptCtrl));
    }
  }

  /** One observable step the engine performs, with the value written. */
  datatype Access =
    | CrWrite(cr: ControlRegister)
    | IerWrite(ier: bv8)
    | IcrWrite(icr: bv8)
    | DcmiClockEnable
    | StreamEnable

  /** The DCMI register block and the DCMI clock-enable flag. */
  class Registers {
    var cr: ControlRegister
    var ier: bv8
    var icr: bv8
    var clockEnabled: bool

    constructor (cr: ControlRegister, ier: bv8, icr: bv8, clockEnabled: bool)
      ensures this.cr == cr && this.ier == ier && this.icr == icr && this.clockEnabled == clockEnabled
    {
      this.cr, this.ier, this.icr, this.clockEnabled := cr, ier, icr, clockEnabled;
    }
  }

  /** The continuous DMA transfer the engine wraps; only its stream-active flag is modelled. */
  class Transfer {
    var active: bool

    constructor (active: bool)
      ensures this.active == active
    {
      this.active := active;
    }
  }

  /** The capture engine `Dcmi`. */
  class Dcmi {
    const regs: Registers
    const transfer: Transfer
    const config: DcmiConfig
    const dataPins: DcmiDataPins
    const signalPins: DcmiSignalPins
    /** Every register write and enable this engine has performed, oldest first. */
    ghost var log: seq<Access>

    /**
     * `Dcmi::init`: reset CR, write the eight configuration fields in one
     * modify, overwrite IER with the mask, enable the DCMI clock, and keep
     * the bundles, the transfer and the configuration.
     */
    constructor Init(dataPins: DcmiDataPins, signalPins: DcmiSignalPins, transfer: Transfer,
                     config: DcmiConfig, regs: Registers)
      modifies regs
      ensures this.regs == regs && this.transfer == transfer && this.config == config
      ensures this.dataPins == dataPins && this.signalPins == signalPins
      ensures regs.cr == ConfiguredCr(config)
      ensures regs.ier == config.interruptRaw
      ensures regs.clockEnabled
      ensures regs.icr == old(regs.icr)
      ensures log == [CrWrite(ResetCr), CrWrite(ConfiguredCr(config)), IerWrite(config.interruptRaw),
                      DcmiClockEnable]
    {
      this.regs, this.transfer, this.config := regs, transfer, config;
      this.dataPins, this.signalPins := dataPins, signalPins;
      new;
      regs.cr := ResetCr;
      ghost var trace := [CrWrite(regs.cr)];
      regs.cr := ConfigureCr(regs.cr, config);
      trace := trace + [CrWrite(regs.cr)];
      regs.ier := config.interruptRaw;
      trace := trace + [IerWrite(regs.ier)];
      regs.clockEnabled := true;
      log := trace + [DcmiClockEnable];
    }

    /**
     * `start`: inside the transfer's setup callback, store the capture-mode
     * encoding in CR's `capture` field, then in a second modify set
     * `enable`; only after both does the DMA stream become active.
     */
    method Start()
      modifies regs, transfer, this`log
      ensures regs.cr == old(regs.cr).(capture := CaptureModeBit(config.captureMode), enable := true)
      ensures regs.ier == old(regs.ier) && regs.icr == old(regs.icr)
      ensures regs.clockEnabled == old(regs.clockEnabled)
      ensures transfer.active
      ensures log == old(log) + [CrWrite(old(regs.cr).(capture := CaptureModeBit(config.captureMode))),
                                 CrWrite(regs.cr), StreamEnable]
    {
      var captureMode := CaptureModeBit(config.captureMode);
      regs.cr := regs.cr.(capture := captureMode);
      log := log + [CrWrite(regs.cr)];
      regs.cr := regs.cr.(enable := true);
      log := log + [CrWrite(regs.cr)];
      transfer.active := true;
      log := log + [StreamEnable];
    }

    /** `clear_interrupt`: one full write of the kind's bits to ICR. */
    method ClearInterrupt(k: DcmiInterrupt)
      modifies regs, this`log
      ensures regs.icr == InterruptBits(k)
      ensures regs.cr == old(regs.cr) && regs.ier == old(regs.ier)
      ensures regs.clockEnabled == old(regs.clockEnabled)
      ensures log == old(log) + [IcrWrite(InterruptBits(k))]
    {
      regs.icr := InterruptBits(k);
      log := log + [IcrWrite(regs.icr)];
    }
  }

  /**
   * CR after `init` and then `start`, as the driver is written: the
   * capture-mode encoding goes into `capture`, `enable` is set, and `cm`
   * keeps its reset value.
   */
  function AsWrittenStartedCr(c: DcmiConfig): ControlRegister {
    ConfiguredCr(c).(capture := CaptureModeBit(c.captureMode)).(enable := true)
  }

  /**
   * A client that runs the engine as the driver is used: `init`, then
   * `start`. The CR it leaves is the as-written started CR, capture is
   * armed, and the log holds the seven accesses in order.
   */
  method InitThenStart(dataPins: DcmiDataPins, signalPins: DcmiSignalPins, transfer: Transfer,
                       config: DcmiConfig, regs: Registers) returns (engine: Dcmi)
    modifies regs, transfer
    ensures engine.regs == regs && engine.transfer == transfer && engine.config == config
    ensures regs.cr == AsWrittenStartedCr(config)
    ensures regs.ier == config.interruptRaw && regs.clockEnabled
    ensures transfer.active
    ensures engine.log == [CrWrite(ResetCr), CrWrite(ConfiguredCr(config)), IerWrite(config.interruptRaw),
                           DcmiClockEnable,
                           CrWrite(ConfiguredCr(config).(capture := CaptureModeBit(config.captureMode))),
                           CrWrite(AsWrittenStartedCr(config)), StreamEnable]
  {
    engine := new Dcmi.Init(dataPins, signalPins, transfer, config, regs);
    engine.Start();
  }

  /**
   * As written, capture is enabled only in snapshot mode, and the mode bit
   * always says continuous; the configuration fields are kept.
   */
  lemma StartedCr(c: DcmiConfig)
    ensures var cr := AsWrittenStartedCr(c);
      && cr.enable && (cr.capture <==> c.captureMode == Snapshot) && !cr.cm
      && cr.(capture := false, enable := false) == ConfiguredCr(c)
  {
  }

  /** The documented default configuration, started as written, never captures. */
  lemma DefaultStartNeverCaptures()
    ensures !AsWrittenStartedCr(DefaultConfig()).capture
  {
  }

  /**
   * CR after `init` and `start` as the reference manual means it: capture
   * enabled in both modes, with the mode encoding in `cm`.
   */
  function IntendedStartedCr(c: DcmiConfig): (cr: ControlRegister)
    ensures cr.capture && cr.enable
    ensures cr.cm <==> c.captureMode == Snapshot
    ensures cr.(capture := false, cm := false, enable := false) == ConfiguredCr(c)
  {
    ConfiguredCr(c).(cm := CaptureModeBit(c.captureMode), capture := true, enable := true)
  }

  /**
   * For every configuration the CR that is written differs from the
   * intended one: in continuous mode capture stays off, in snapshot mode
   * the mode bit stays at continuous.
   */
  lemma AsWrittenDiffersFromIntended(c: DcmiConfig)
    ensures AsWrittenStartedCr(c) != IntendedStartedCr(c)
    ensures c.captureMode == Continuous ==> !AsWrittenStartedCr(c).capture
    ensures c.captureMode == Snapshot ==> AsWrittenStartedCr(c).cm != IntendedStartedCr(c).cm
  {
    StartedCr(c);
  }

}
