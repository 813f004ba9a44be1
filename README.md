# DCMI capture driver and RCC peripheral enables — a Dafny model

This project models three pieces of an STM32F4 hardware-abstraction layer: the camera interface (DCMI) driver, which configures the peripheral and starts capture; the pin-capability tagging that decides which GPIO pins may be wired into the DCMI; and the RCC enable, low-power enable and reset operations generated by the `bus!` macro. Registers are abstract state, so no hardware is involved.

- `wrappers.dfy` — module `Wrappers`: the `Option` type.
- `dcmi_pins.dfy` — module `DcmiPins` (`src/dcmi/traits.rs`). The marker-trait impls become the set `Tags`. The predicate `Capable(pin, role)` agrees with that set (`CapableIsImpl`) and holds only for pins in alternate function AF13. The trait bounds of the two bundles become the subset types `DcmiSignalPins` and `DcmiDataPins`. Their constructors, `NewSignalPins` and `NewDataPinsFor8Bits`, carry the bounds as `requires` clauses. Where Rust rejects a wrong pin at compile time, Dafny rejects the call at verification time. `RoleOf` reads the same impl list port by port, and a lemma shows the two readings agree. `Capable` is computed from `RoleOf`.
- `dcmi.dfy` — module `DcmiDriver` (`src/dcmi/mod.rs`). The value layer is written as functions over datatypes:
  - the interrupt bit table;
  - the five enum encodings, each paired with a decoder;
  - the builder `DcmiConfig`, with its setters, `attach_interrupt` and `Default`.

  A builder chain is a sequence of `BuilderStep`s folded over the default by `Build`. The engine is the class `Dcmi`, which drives a `Registers` object; see "Engine" below.
- `rcc_enable.dfy` — module `RccEnable` (`src/rcc/enable.rs`). `Table` is the `bus!` table with every feature-gated block included. The RCC is the class `Rcc`; see "RCC" below.

**Engine.** The `Registers` object holds CR, IER, ICR and the DCMI clock-enable flag. CR is a record of the named fields the driver writes. The engine also holds a `Transfer` object, which stands for the DMA transfer; only its stream-active flag is modelled. A ghost `log` records every access in order, with the value each write leaves. So the order of writes is stated in the methods' postconditions:
- `Init`: CR reset, then one CR modify, then the IER write, then the clock enable.
- `Start`: the `capture` write, then the `enable` write, then stream activation.

**RCC.** The class `Rcc` maps each RCC register to the set of its fields that are set. Each method is proved against the pure `SetBit` / `ClearBit`, whose contracts say that exactly one field of one register changes. A ghost `history` records the register file after every modify. This exposes the intermediate state of `Reset`.

## Model

| member | source | states |
|---|---|---|
| `DcmiDriver.InterruptBits` | src/dcmi/mod.rs:136-147 | every kind's bits are non-zero and lie within 0x1F; a kind other than `All` is exactly one bit, and `All` is not a single bit |
| `DcmiDriver.AllIsUnionOfSingles` | src/dcmi/mod.rs:136-147 | `All`'s bits are the bitwise OR of Line, VSync, Error, Overrun and Frame |
| `DcmiDriver.InterruptBitsDisjoint` | src/dcmi/mod.rs:136-147 | two different single kinds share no bit, and every kind's bits are contained in `All`'s |
| `DcmiDriver.InterruptBitsTable` | src/dcmi/mod.rs:136-147 | Line is 0x10, VSync 0x08, Error 0x04, Overrun 0x02, Frame 0x01 and All 0x1F |
| `DcmiDriver.EdmBits` | src/dcmi/mod.rs:249-258 | the extended-data-mode code is at most 3 |
| `DcmiDriver.EdmBitsBijective` | src/dcmi/mod.rs:249-258 | the width encoding and its decoder are inverse: the map from the four widths onto {0,1,2,3} is one-to-one and onto, and every code above 3 decodes to nothing |
| `DcmiDriver.FcrcBits` | src/dcmi/mod.rs:265-273 | the frame-capture-control code is at most 2, so 0b11 is never produced |
| `DcmiDriver.FcrcBitsBijective` | src/dcmi/mod.rs:265-273 | the three frame rates map one-to-one onto {0,1,2}, and every other code decodes to nothing |
| `DcmiDriver.PolarityBit` | src/dcmi/mod.rs:279-286 | the sync-polarity bit is true exactly for ActiveHigh |
| `DcmiDriver.PixelClockPolarityBit` | src/dcmi/mod.rs:292-299 | the pixel-clock bit is true exactly for RisingEdge |
| `DcmiDriver.CaptureModeBit` | src/dcmi/mod.rs:305-312 | the capture-mode bit is true exactly for Snapshot |
| `DcmiDriver.DefaultConfig` | src/dcmi/mod.rs:225-239 | the default mask is empty, the default capture mode encodes as continuous, and configuring CR from the default leaves the reset value |
| `DcmiDriver.DefaultIsDocumented` | src/dcmi/mod.rs:212-239 | the default matches the documented table: every encoding is 0 or false (8-bit, all frames, active-low syncs, falling edge, continuous), embedded sync, JPEG and crop are off, and the mask is 0 |
| `DcmiDriver.WithExtDataMode` | src/dcmi/mod.rs:170-173 | sets the data width; every other field keeps its value |
| `DcmiDriver.WithFrameCaptCtrl` | src/dcmi/mod.rs:174-177 | sets the frame-rate control; every other field keeps its value |
| `DcmiDriver.WithVerticalSyncPolarity` | src/dcmi/mod.rs:178-181 | sets the VSYNC polarity; every other field keeps its value |
| `DcmiDriver.WithHorizontalSyncPolarity` | src/dcmi/mod.rs:182-185 | sets the HSYNC polarity; every other field keeps its value |
| `DcmiDriver.WithPixelClockPolarity` | src/dcmi/mod.rs:186-189 | sets the pixel-clock polarity; every other field keeps its value |
| `DcmiDriver.WithEmbeddedSync` | src/dcmi/mod.rs:190-193 | sets embedded sync; every other field keeps its value |
| `DcmiDriver.WithJpeg` | src/dcmi/mod.rs:194-197 | sets JPEG mode; every other field keeps its value |
| `DcmiDriver.WithCrop` | src/dcmi/mod.rs:198-201 | sets crop; every other field keeps its value |
| `DcmiDriver.WithCaptureMode` | src/dcmi/mod.rs:202-205 | sets the capture mode; every other field keeps its value |
| `DcmiDriver.AttachInterrupt` | src/dcmi/mod.rs:206-209 | afterwards the kind's bits are set in the mask; every other mask bit and every other field is unchanged |
| `DcmiDriver.AttachIdempotent` | src/dcmi/mod.rs:206-209 | attaching the same kind twice equals attaching it once |
| `DcmiDriver.AttachCommutes` | src/dcmi/mod.rs:206-209 | attaching two kinds in either order gives the same configuration |
| `DcmiDriver.AttachExamples` | src/dcmi/mod.rs:206-239 | from the default, Frame then VSync gives mask 0x09, and Frame twice gives 0x01 |
| `DcmiDriver.StepsCommute` | src/dcmi/mod.rs:170-209 | two builder calls on different fields, or two attaches, can be swapped |
| `DcmiDriver.LastSetterWins` | src/dcmi/mod.rs:170-205 | of two calls of the same setter, only the later one has any effect |
| `DcmiDriver.ApplyStepMask` | src/dcmi/mod.rs:170-209 | only an attach changes the mask, and it ORs in its kind's bits |
| `DcmiDriver.AttachedMaskSnoc` | src/dcmi/mod.rs:206-209 | appending one more builder call to a chain ORs that call's interrupt bits (if it is an attach) onto the reference mask, and leaves it alone otherwise |
| `DcmiDriver.AttachedMaskWithin` | src/dcmi/mod.rs:136-147 | the OR of the bits of any attached kinds has no bit outside 0x1F |
| `DcmiDriver.BuildMask` | src/dcmi/mod.rs:206-239 | for any builder chain from the default, the mask is the OR of the bits of exactly the kinds attached in it |
| `DcmiDriver.BuildMaskWithin` | src/dcmi/mod.rs:206-239 | for any builder chain from the default, the mask has no bit outside 0x1F |
| `DcmiDriver.ConfigureCrWrites` | src/dcmi/mod.rs:73-90 | the configuration modify writes edm and fcrc with the unclipped codes and the six bits with their encodings, and leaves capture, cm and enable as they were |
| `DcmiDriver.ConfiguredCr` | src/dcmi/mod.rs:71-90 | after the reset and the configuration modify, capture, cm and enable are clear, and clearing the eight configured fields gives back the reset value |
| `DcmiDriver.ConfiguredCrFaithful` | src/dcmi/mod.rs:71-90 | two configurations give the same CR exactly when they agree on the eight CR-related fields; capture mode and interrupts play no part |
| `DcmiDriver.Dcmi.Init` | src/dcmi/mod.rs:60-102 | CR is the configured value and IER equals the mask exactly, with no OR into any old value; the DCMI clock is on; ICR and the transfer are untouched; the bundles, transfer and configuration are stored unchanged; the log is reset, configure, IER write, clock enable, in that order |
| `DcmiDriver.Dcmi.Start` | src/dcmi/mod.rs:104-110 | CR gains `capture` = capture-mode encoding and `enable` = true, with every other CR field, IER, ICR and the clock unchanged; the stream becomes active; the log is the `capture` write, then the `enable` write, then stream enable |
| `DcmiDriver.StartedCr` | src/dcmi/mod.rs:104-109 | as written, after `init` and `start` CR has enable set, capture set exactly in snapshot mode, cm still clear, and otherwise equals the configured CR |
| `DcmiDriver.InitThenStart` | src/dcmi/mod.rs:60-110 | running `Init` and then `Start` on the engine leaves the as-written started CR, IER equal to the mask, the clock on and the stream active; the log is the four `init` accesses followed by the three `start` accesses |
| `DcmiDriver.DefaultStartNeverCaptures` | src/dcmi/mod.rs:104-109 | as written, starting with the default configuration leaves capture disabled |
| `DcmiDriver.IntendedStartedCr` | src/dcmi/mod.rs:104-109 | the corrected start: capture and enable are set in both modes, cm holds the capture-mode encoding, and the configured fields are kept |
| `DcmiDriver.AsWrittenDiffersFromIntended` | src/dcmi/mod.rs:104-109 | for every configuration the as-written CR differs from the corrected one: in continuous mode capture is off, and in snapshot mode cm is wrong |
| `DcmiDriver.Dcmi.ClearInterrupt` | src/dcmi/mod.rs:112-116 | ICR holds exactly the kind's bits, whatever the configuration or the prior state; CR, IER and the clock are untouched; one ICR write is logged |
| `DcmiPins.TagsMatchRoleOf` | src/dcmi/traits.rs:27-79 | a (port, pin, role) triple is among the impls exactly when the port-by-port table gives that pin that role |
| `DcmiPins.CapableIsImpl` | src/dcmi/traits.rs:27-79 | a pin is capable of a role exactly when it is in AF13 and its (port, pin, role) triple is among the impls |
| `DcmiPins.UniqueRole` | src/dcmi/traits.rs:27-79 | a pin capable of two roles is capable of only one: each tagged pin has a single impl |
| `DcmiPins.OnlyAf13IsCapable` | src/dcmi/traits.rs:27-79 | a pin in any mode other than AF13 is capable of no role |
| `DcmiPins.PixClkOnlyOnPA6` | src/dcmi/traits.rs:28 | a pin is PIXCLK-capable exactly when it is PA6 in AF13 |
| `DcmiPins.Data12OnlyOnPF11` | src/dcmi/traits.rs:76 | a pin is D12-capable exactly when it is PF11 in AF13 |
| `DcmiPins.IsDcmiSignalPins` | src/dcmi/traits.rs:89-95 | a signal bundle that meets the trait bound has three pairwise different pins |
| `DcmiPins.NewSignalPins` | src/dcmi/traits.rs:96-108 | can be called only with HSYNC-, VSYNC- and PIXCLK-capable pins; the bundle stores exactly those pins |
| `DcmiPins.IsDcmiDataPins` | src/dcmi/traits.rs:123-134 | a data bundle that meets the trait bound has no pin in two slots |
| `DcmiPins.SlotCapable` | src/dcmi/traits.rs:123-134 | in a data bundle that meets the bound, slot k holds a Dk-capable pin, for each k in 0..7 |
| `DcmiPins.NewDataPinsFor8Bits` | src/dcmi/traits.rs:136-167 | can be called only when the pin in slot k is Dk-capable for each k in 0..7; slot k holds exactly the k-th argument |
| `DcmiPins.HighDataLinesNotInBundle` | src/dcmi/traits.rs:113-134 | no slot of a valid data bundle holds a pin tagged D8..D13 |
| `RccEnable.SetBit` | src/rcc/enable.rs:26 | a set-bit modify sets that one field of that register; no other field of any register changes |
| `RccEnable.ClearBit` | src/rcc/enable.rs:32 | a clear-bit modify clears that one field of that register; no other field of any register changes |
| `RccEnable.Table` | src/rcc/enable.rs:59-140 | every entry names an enable, a low-power enable and a reset register, in that order, all three on the same bus |
| `RccEnable.SetBitIdempotent` | src/rcc/enable.rs:25-29 | enabling twice has the same effect as enabling once |
| `RccEnable.ClearAfterSetRestores` | src/rcc/enable.rs:25-33 | disabling after enabling restores the exact prior register file when the field was clear |
| `RccEnable.SetThenClearIsClear` | src/rcc/enable.rs:50-53 | the reset's set-then-clear pair ends equal to a single clear |
| `RccEnable.TableRegistersOnOwnBus` | src/rcc/enable.rs:59-140 | every entry uses the enable, low-power and reset registers of one bus: AHB1 for DMA1/2 and all GPIOs, AHB2 for OTG_FS, APB2 for SPI1, SPI4-6, USART1 and USART6, and APB1 for SPI2/3, I2C1-3 and USART2 |
| `RccEnable.OtgFsEntriesShared` | src/rcc/enable.rs:94-100 | the four OTG_FS peripherals have identical six-tuples |
| `RccEnable.Usart2ResetFieldName` | src/rcc/enable.rs:135-140 | USART2's entry is on APB1, and its reset field is `uart2rst`, not `usart2rst` |
| `RccEnable.EnableReaches` | src/rcc/enable.rs:25-29 | enabling p leaves q enabled exactly when q was already enabled or has the same enable register and field as p |
| `RccEnable.OtgFsEnableShared` | src/rcc/enable.rs:96-99 | enabling any one OTG_FS peripheral enables all four |
| `RccEnable.Rcc.Enable` | src/rcc/enable.rs:25-29 | the register file becomes `SetBit` of the enable field, and one state is recorded |
| `RccEnable.Rcc.Disable` | src/rcc/enable.rs:31-33 | the register file becomes `ClearBit` of the enable field, and one state is recorded |
| `RccEnable.Rcc.LowPowerEnable` | src/rcc/enable.rs:38-42 | the register file becomes `SetBit` of the low-power enable field, and one state is recorded |
| `RccEnable.Rcc.LowPowerDisable` | src/rcc/enable.rs:44-46 | the register file becomes `ClearBit` of the low-power enable field, and one state is recorded |
| `RccEnable.Rcc.Reset` | src/rcc/enable.rs:50-53 | two states are recorded: first the old file with the reset field set, then the final file, which is the old file with that field cleared |

## The `capture` field and the capture mode

`start` stores the capture-mode encoding in the CR field named `capture` (src/dcmi/mod.rs:107). In ST's reference manual RM0090, DCMI_CR has CAPTURE at bit 0, which enables capture, and CM at bit 1, which selects snapshot or continuous mode. The model's `ControlRegister` has both fields. No driver code writes `cm`, so it keeps its reset value, which means continuous.

`Start` follows the code: it writes `capture := CaptureModeBit(mode)`. `AsWrittenStartedCr` is the resulting CR after `Init` and `Start`, as `InitThenStart` proves by running both on the engine, and `IntendedStartedCr` is the corrected one. See "Findings".

The interrupt table is modelled as the code gives it. `All` is 0x1F, the OR of all five single kinds (`AllIsUnionOfSingles`).

## Findings

| source | as written | input that shows it | evidently intended | confidence | as-written member | corrected member |
|---|---|---|---|---|---|---|
| src/dcmi/mod.rs:107 | the capture-mode encoding is written to CR's `capture` field (CAPTURE, bit 0), and CM (bit 1) is never written | the default configuration (continuous): after `start` capture stays disabled; snapshot mode: capture is enabled but CM still says continuous | CAPTURE set to 1 in both modes and CM set to the capture-mode encoding, as DCMI_CR is laid out in RM0090 | not executed | `DcmiDriver.AsWrittenDiffersFromIntended` | `DcmiDriver.IntendedStartedCr` |

## Left out

- The DMA engine: `dma::Transfer`, streams, channels and the `PeriAddress`/`DMASet` bounds. The transfer is reduced to one stream-active flag. `Transfer::start` with its setup callback is inlined into `Dcmi.Start`: the callback's two CR writes come first, then the stream is activated.
- Raw register access through `I::ptr()` and the PAC's `reset`/`modify`/`write` closures. These become assignments to abstract register fields. CR's hardware bit positions are not in the modelled code, so CR is a record of named fields. The PAC's 2-bit field writer keeps the low two bits of the value it is given; the model does the same (`Field2`). The encodings never exceed 3, so nothing is lost.
- DcmiDriver.Dcmi.Init: register writes take effect whether or not `clockEnabled` is set. The driver writes CR and IER (src/dcmi/mod.rs:71-93) before it enables the DCMI clock (src/dcmi/mod.rs:95). On the hardware, writes to a peripheral whose clock is off are ignored, so when the clock is off on entry the configuration would be lost. The model has no clock gating, so it does not capture this.
- `cm` in `ControlRegister`: no driver code writes it; it exists so that the as-written and the corrected start can be compared.
- `cortex_m::asm::dsb()` after enable and low-power enable: a pipeline barrier has no meaning in a sequential model.
- The commented-out check at src/dcmi/mod.rs:67 is not enforced by the code, so `Init` has no precondition on the transfer.
- `sealed::Bits`, `RccEnable`, `Instance` and the DCMI clock bit are not part of this model. DCMI has no `bus!` entry, so its clock enable is the single flag `Registers.clockEnabled`.
- `#[cfg(feature = …)]` gating in src/rcc/enable.rs: the model has the union of all table entries.
- Pixel data movement, image formats, and reading or dispatching interrupt status flags.
- Calls of `clear_interrupt` from an interrupt handler running at the same time as other code: a concurrency question outside a sequential model.
- GPIO alternate-function configuration itself: pins arrive already in their mode.
- Move semantics of pins: Dafny values can be copied, so "a pin moved into a bundle cannot be used elsewhere" is not captured. What is proved instead is that no pin fills two slots of one bundle (the ensures of `IsDcmiSignalPins` and `IsDcmiDataPins`).
- Compile-time rejection of a wrong pin: in Rust it is a compile error; here it is a call of `NewSignalPins` or `NewDataPinsFor8Bits` that the verifier rejects, and there is no run-time representation of a rejected bundle.
