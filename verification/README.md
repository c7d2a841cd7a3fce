# h7 firmware core in Dafny

A model of the core of the olback/h7 firmware for the STM32H747 (Arduino Portenta H7).
It covers six components, and proves properties of each:

- **DSI video-mode register programmer** (`DsiVideoConfig::apply`, a port of ST's
  `HAL_DSI_ConfigVideoMode`). It is a guarded sequence of clear-then-set steps on the
  DSIHOST registers. Modules: `RegisterBits`, `Dsihost`, `VideoConfig`.
- **DSI PHY timer programmer** (`DsiPhyTimerConfig::apply`). It writes CLTCR, DLTCR and
  PCONFR. Module: `PhyTimer`.
- **Frame-swap controller** (`Gpu::new`, `Gpu::swap` and the `TIM2` handler). Two frame
  buffers exchange roles, gated by the LTDC layer's "swap pending" flag. Module: `Display`.
- **Boot-image packer** (`h7-mkapp`). It rewrites the boot-address word from
  little-endian to big-endian and appends the big-endian CRC-32/MPEG-2 of the result.
  Modules: `ByteOrder`, `Crc32Mpeg2`, `MkApp`.
- **Entry point** (`h7-cm7/src/main.rs`), in three parts:
  - the main loop's command buffer and tokenizer (modules `Utf8` and `Terminal`);
  - the SDRAM layout, the DSI bring-up order and the `DefaultHandler` name table (module
    `Firmware`).
- **SD-card time source** (`cm7/src/time.rs`). It reads and sets the RTC date-time and
  converts it to a FAT timestamp. Module: `TimeSource`.

How the source's form is kept:

- Objects the source updates in place are classes whose methods state their new state:
  - the DSIHOST register block, `Dsihost.Registers`;
  - the GPU, the global GPU cell and the TIM2 status register;
  - the console state of the main loop;
  - the RTC and its global slot.
- The packer builds its output array in place, in three `copy_from_slice` regions.
- The argument collection of the main loop is a loop over a fixed 16-entry array.
- Each method is proved against a function of the old state. The properties are proved
  about those functions:
  - `VmcrConfigured` and `LpmcrConfigured` for the registers;
  - `SwapStep` and `Run` for the GPU;
  - `Pack` for the packer;
  - `LoopStep` and `Run` for the console;
  - `ToTimestamp` for the time source.

Two facts of the bring-up code the model keeps:

- The PHY timers are programmed after `start` and `enable_bus_turn_around`
  (h7-cm7/src/main.rs:447-457); `Firmware.BRING_UP` follows that order.
- The TIM2 NVIC unmask is commented out (h7-cm7/src/main.rs:466). So, after this
  bring-up, the swap handler is never entered (`Firmware.TimerInterruptStaysMasked`).

## Model

| member | source | states |
|---|---|---|
| RegisterBits.ThenApply | h7/src/dsi/video_config.rs:197-360 | two read-modify-write updates in a row are one update of the same closed form `(reg & keep) \| ors` |
| RegisterBits.Idempotent | h7/src/dsi/video_config.rs:197-360 | every update of the closed form, applied twice, leaves the register where the first application left it |
| RegisterBits.FieldReadBack | h7/src/dsi/video_config.rs:203-205 | a value that fits its field reads back from it, and the bits outside the field keep their value |
| RegisterBits.FieldOrsValueAsSupplied | h7/src/dsi/video_config.rs:203-205 | the value is OR-ed as supplied: its bits outside the field are set in the register as well |
| RegisterBits.LaterFieldWins | h7/src/dsi/video_config.rs:303-360 | in two consecutive field writes, an earlier bit survives outside the later mask, and inside it the later value wins |
| RegisterBits.RunIsCompose | h7/src/dsi/video_config.rs:303-360 | running an ordered chain of step pairs equals applying its single composed update |
| RegisterBits.RunIdempotent | h7/src/dsi/video_config.rs:303-360 | an ordered chain of step pairs run twice changes nothing more |
| RegisterBits.LastWriteWins | h7/src/dsi/video_config.rs:358-360 | inside the mask of the last step of a chain, the register holds that step's value |
| RegisterBits.UntouchedBits | h7/src/dsi/video_config.rs:303-360 | bits outside every mask and every value of a chain keep their old value |
| VideoConfig.Apply | h7/src/dsi/video_config.rs:190-361 | if the 18-bit loosely-packed assertion fails, nothing is written (the panic). Otherwise each of the 17 registers ends as its own steps composed in source order; the PHY timing registers are outside the frame |
| VideoConfig.Program | h7/src/dsi/video_config.rs:195-360 | the body after the loosely-packed assertion: the new value of every register written, as a function of its old value |
| VideoConfig.VmcrIsOrderedChain | h7/src/dsi/video_config.rs:201-360 | VMCR, written in nine places interleaved with other registers, ends as the ordered run of its nine step pairs |
| VideoConfig.LpmcrIsOrderedChain | h7/src/dsi/video_config.rs:308-318 | LPMCR ends as the ordered run of its two step pairs |
| VideoConfig.McrSelectsVideoMode | h7/src/dsi/video_config.rs:195-197 | MCR's CMDM bit ends clear (video mode) |
| VideoConfig.McrKeepsOtherBits | h7/src/dsi/video_config.rs:197 | MCR is only AND-ed: every bit other than CMDM keeps its value |
| VideoConfig.WcfgrForm | h7/src/dsi/video_config.rs:199-247 | WCFGR loses DSIM and COLMUX and gains the colour coding shifted left by one |
| VideoConfig.WcfgrSelectsVideoMode | h7/src/dsi/video_config.rs:198-247 | with the shifted colour coding inside COLMUX and the two fields apart, DSIM ends clear |
| VideoConfig.WcfgrColorCodingReadsBack | h7/src/dsi/video_config.rs:245-247 | COLMUX reads back the colour coding shifted to bit 1 when it fits |
| VideoConfig.LpcrDataEnablePolarity | h7/src/dsi/video_config.rs:231-235 | with disjoint polarity fields, DEP reads back the data-enable polarity |
| VideoConfig.LpcrVsyncPolarity | h7/src/dsi/video_config.rs:231-235 | VSP reads back the vertical sync polarity |
| VideoConfig.LpcrHsyncPolarity | h7/src/dsi/video_config.rs:231-235 | HSP reads back the horizontal sync polarity |
| VideoConfig.LpcrKeepsOtherBits | h7/src/dsi/video_config.rs:231-235 | the LPCR bits outside the three polarity fields keep their value |
| VideoConfig.LcolcrOtherCodings | h7/src/dsi/video_config.rs:237-258 | outside 18-bit coding, LCOLCR only has COLC replaced by the colour coding |
| VideoConfig.LcolcrEighteenBit | h7/src/dsi/video_config.rs:249-258 | in 18-bit coding, LPE is cleared and the loosely-packed setting OR-ed in after the COLC write |
| VideoConfig.LcolcrLooselyPacked | h7/src/dsi/video_config.rs:191-258 | in 18-bit coding, a configuration that passed the loosely-packed assertion leaves LPE reading the "enabled" constant |
| VideoConfig.VmcrModeSurvives | h7/src/dsi/video_config.rs:201-360 | the transmission type written first survives outside the masks of the eight later VMCR steps |
| VideoConfig.VmcrCommandTransmissionSurvives | h7/src/dsi/video_config.rs:302-360 | the LP command enable survives outside the masks of the seven later VMCR steps |
| VideoConfig.VmcrAcknowledgeWins | h7/src/dsi/video_config.rs:356-360 | inside FBTAAE, the last VMCR step, the acknowledge request wins |
| VideoConfig.LpmcrVactSizeWins | h7/src/dsi/video_config.rs:314-318 | inside VLPSIZE, the VACT largest packet size wins |
| VideoConfig.LpmcrLargestSizeSurvives | h7/src/dsi/video_config.rs:308-318 | the largest packet size, shifted to bit 16, survives outside VLPSIZE |
| VideoConfig.McrIdempotent | h7/src/dsi/video_config.rs:197 | programming MCR twice changes nothing more |
| VideoConfig.WcfgrIdempotent | h7/src/dsi/video_config.rs:199-247 | programming WCFGR twice changes nothing more |
| VideoConfig.LpcrIdempotent | h7/src/dsi/video_config.rs:233-235 | programming LPCR twice changes nothing more |
| VideoConfig.LcolcrIdempotent | h7/src/dsi/video_config.rs:239-258 | programming LCOLCR twice changes nothing more, in either colour coding |
| VideoConfig.VmcrIdempotent | h7/src/dsi/video_config.rs:203-360 | programming VMCR twice changes nothing more |
| VideoConfig.LpmcrIdempotent | h7/src/dsi/video_config.rs:310-318 | programming LPMCR twice changes nothing more |
| PhyTimer.MaxTime | cm7/src/dsi/phy_timer_config.rs:22-26 | the result is one of the two clock-lane times and at least as large as both |
| PhyTimer.Apply | cm7/src/dsi/phy_timer_config.rs:21-65 | CLTCR, DLTCR and PCONFR end as their clear-then-set updates of their old values; nothing else in the register block changes |
| PhyTimer.CltcrHalvesAgree | cm7/src/dsi/phy_timer_config.rs:29-36 | HS2LP_TIME (high half) and LP2HS_TIME (low half) of CLTCR hold the same time, so asymmetric clock-lane inputs are made symmetric |
| PhyTimer.CltcrHoldsMaxTime | cm7/src/dsi/phy_timer_config.rs:22-36 | LP2HS_TIME, the low half of CLTCR, holds the longer clock-lane time |
| PhyTimer.CltcrDeviceLayout | cm7/src/dsi/phy_timer_config.rs:22-36 | with the STM32H7's masks (LP2HS_TIME bits 9-0, HS2LP_TIME bits 25-16), both fields hold the longer clock-lane time |
| PhyTimer.CltcrKeepsOtherBits | cm7/src/dsi/phy_timer_config.rs:29-36 | CLTCR bits outside its two fields keep their value |
| PhyTimer.DltcrHoldsDataLaneTimes | cm7/src/dsi/phy_timer_config.rs:39-54 | DLTCR's fields hold the unmaximised data-lane times at bits 0, 16 and 24 |
| PhyTimer.CltcrExampleValues | cm7/src/dsi/phy_timer_config.rs:22-36 | from zero, clock times 35 and 20 give `35 \| 35 << 16` |
| PhyTimer.DltcrExampleValues | cm7/src/dsi/phy_timer_config.rs:39-54 | from zero, data times 35 and 35 with read time 0 give `35 << 16 \| 35 << 24` |
| PhyTimer.CltcrIdempotent | cm7/src/dsi/phy_timer_config.rs:29-36 | applying twice leaves CLTCR as applying once |
| PhyTimer.DltcrIdempotent | cm7/src/dsi/phy_timer_config.rs:39-54 | applying twice leaves DLTCR as applying once |
| PhyTimer.PconfrIdempotent | cm7/src/dsi/phy_timer_config.rs:57-64 | applying twice leaves PCONFR as applying once |
| PhyTimer.PconfrStopWaitMisplaced | cm7/src/dsi/phy_timer_config.rs:62-64 | as written, a stop-wait time of 10 never reaches SW_TIME (bits 8-15): the field reads 0 |
| PhyTimer.PconfrStopWaitInLowBits | cm7/src/dsi/phy_timer_config.rs:62-64 | as written, the stop-wait time lands in the low byte of PCONFR instead |
| PhyTimer.PconfrIntendedReadsBack | cm7/src/dsi/phy_timer_config.rs:61 | shifted by 8 as the ported HAL line does, SW_TIME reads the stop-wait time back |
| PhyTimer.PconfrIntendedKeepsOtherBits | cm7/src/dsi/phy_timer_config.rs:61 | the shifted write changes no bit of PCONFR outside SW_TIME |
| Display.AllocHoldsTwoFrames | h7-cm7/src/display.rs:23-24 | the allocation is exactly two full-screen Rgb565 frame buffers |
| Display.DisplayFrameFitsSlot | h7-cm7/src/display.rs:30 | the GPU's display is SCREEN_HEIGHT by SCREEN_HEIGHT, so its buffers are smaller than their slots; the last 256 × 768 pixels of each slot are never drawn |
| Display.Gpu.constructor | h7-cm7/src/display.rs:35-38 | the layer is enabled on the display's front buffer; front and back are distinct |
| Display.Gpu.Swap | h7-cm7/src/display.rs:40-53 | nothing while a swap is pending; otherwise the buffers exchange roles, the layer gets the new front buffer (setting pending), and the blue LED toggles |
| Display.Tim2 | h7-cm7/src/display.rs:71-81 | swaps only when a GPU is installed, and clears the update flag in both cases |
| Display.SwapKeepsCoherent | h7-cm7/src/display.rs:40-47 | a swap keeps front and back the same two distinct buffers and the layer on the front one |
| Display.RunKeepsCoherent | h7-cm7/src/display.rs:35-81 | over any sequence of timer ticks and vertical blanks, the same holds |
| Display.PendingBlocksSwaps | h7-cm7/src/display.rs:41 | while the layer keeps a swap pending, any number of ticks changes nothing |
| Display.FrontFollowsSwapParity | h7-cm7/src/display.rs:42 | the front buffer after any events is decided by the parity of the number of swaps |
| Display.LedCountsSwaps | h7-cm7/src/display.rs:44 | the blue LED toggles exactly once per swap that happened |
| Display.TwoSwapsRestore | h7-cm7/src/display.rs:40-53 | two swaps with a vertical blank between them restore the original buffers and scan-out address |
| Display.NSwapsAlternate | h7-cm7/src/display.rs:40-53 | over any number N of frames, each a tick then a vertical blank, exactly N swaps happen and none is left pending |
| Display.FramesAlternate | h7-cm7/src/display.rs:40-53 | after N such frames the original front buffer is shown exactly when N is even: the buffers strictly alternate |
| ByteOrder.BeRoundTrip | h7-mkapp/src/main.rs:22 | reading back the big-endian bytes of a word gives the word |
| ByteOrder.BeBytesRoundTrip | h7-mkapp/src/main.rs:16-22 | writing a big-endian word gives back the bytes it was read from |
| ByteOrder.LeToBeReverses | h7-mkapp/src/main.rs:16-22 | a word read little-endian and written big-endian has its four bytes reversed |
| Crc32Mpeg2.UpdateAppend | h7-mkapp/src/main.rs:24-27 | feeding data in parts, as the incremental digest does, gives the same register as feeding it at once |
| Crc32Mpeg2.AppendedChecksumLeavesZero | h7-mkapp/src/main.rs:24-30 | data followed by its own big-endian checksum checks to zero |
| Crc32Mpeg2.CheckValue | h7-mkapp/src/main.rs:24 | the checksum of "123456789" is 0x0376E6E7, the catalogue check value of CRC-32/MPEG-2 |
| MkApp.Pack | h7-mkapp/src/main.rs:11-30 | refused exactly when shorter than 4 bytes; otherwise 4 bytes longer, header bytes reversed, body kept, and the trailer is the big-endian checksum of everything before it |
| MkApp.UnpackPack | h7-mkapp/src/main.rs:16-30 | a loader that checks the trailer and swaps the header back recovers the input |
| MkApp.PackedImageChecksZero | h7-mkapp/src/main.rs:24-30 | the whole packed image, trailer included, checks to zero |
| MkApp.CopyWord | h7-mkapp/src/main.rs:22 | four bytes are copied into place and the rest of the array is kept |
| MkApp.CopyRegion | h7-mkapp/src/main.rs:23 | the region is copied from the input and the rest of the array is kept |
| MkApp.Build | h7-mkapp/src/main.rs:11-30 | refuses inputs shorter than 4 bytes; otherwise returns a fresh array holding exactly `Pack(input)` |
| Utf8.DecodeFirstEncodeChar | h7-cm7/src/main.rs:484 | the encoding of a scalar value is a well-formed sequence that decodes to it |
| Utf8.EncodeCharDecodeFirst | h7-cm7/src/main.rs:484 | a well-formed sequence encodes a scalar value and is that value's encoding |
| Utf8.DecodeEncode | h7-cm7/src/main.rs:484 | `from_utf8` accepts the encoding of any string of scalar values and returns that string |
| Utf8.EncodeDecode | h7-cm7/src/main.rs:484 | what `from_utf8` accepts is exactly the encoding of what it returns |
| Utf8.NeverUtf8Rejected | h7-cm7/src/main.rs:484 | a buffer holding C0, C1 or F5-FF anywhere is rejected |
| Terminal.FilterKeepsWords | h7-cm7/src/main.rs:486 | the blank-piece filter after `split_whitespace` drops nothing |
| Terminal.WordsUnwords | h7-cm7/src/main.rs:486 | words joined by spaces split back into the same words |
| Terminal.FirstArgs | h7-cm7/src/main.rs:489-500 | at most 16 arguments, in order, a prefix of the pieces after the command, and all of them when there are at most 16 |
| Terminal.CollectArgs | h7-cm7/src/main.rs:490-500 | the loop over the 16-entry array fills it with exactly `FirstArgs` |
| Terminal.LineStaysBounded | h7-cm7/src/main.rs:516-522 | the command buffer never holds more than 1024 bytes |
| Terminal.StoreByte | h7-cm7/src/main.rs:516-522 | a non-line-feed byte is appended when there is room, and otherwise dropped with "Buffer full" |
| Terminal.NothingToRunKeepsLine | h7-cm7/src/main.rs:484-514 | a line feed after invalid UTF-8 or a blank line keeps the buffer and runs nothing |
| Terminal.LineFeedRunsCommand | h7-cm7/src/main.rs:484-510 | a line feed after a command runs it with its first 16 arguments, then empties the buffer and the FIFO |
| Terminal.InvalidByteWedgesLine | h7-cm7/src/main.rs:484-522 | once the buffer holds a byte never found in UTF-8, no later event empties it or runs a command |
| Terminal.IntendedDiscardsInvalidLine | h7-cm7/src/main.rs:511-513 | with the error arm also resetting `cmd_buf_len`, a line feed after invalid UTF-8 reports it, runs nothing and empties the buffer |
| Terminal.IntendedRecoversFromInvalidLine | h7-cm7/src/main.rs:482-525 | with that error arm, a command typed after a rejected line runs with its arguments |
| Terminal.PassesStoreBytes | h7-cm7/src/main.rs:516-519 | queued bytes other than line feeds land in the buffer one per pass, when there is room |
| Terminal.TypedLineRunsCommand | h7-cm7/src/main.rs:482-525 | typing a command with up to 16 space-separated arguments and a line feed runs exactly that command with those arguments |
| Terminal.Console.Receive | h7-cm7/src/main.rs:483 | a received byte joins the end of the FIFO |
| Terminal.Console.Pass | h7-cm7/src/main.rs:482-525 | one pass of the main loop updates buffer, FIFO, output and commands run as `LoopStep` |
| Terminal.Console.DrainInput | h7-cm7/src/main.rs:507 | the FIFO ends empty |
| Firmware.LayoutDisjointContiguous | h7-cm7/src/main.rs:283-287 | frame buffer 0 at the SDRAM base, frame buffer 1 right after, the heap right after both; all three disjoint |
| Firmware.DisplayBuffersInsideSlots | h7-cm7/src/main.rs:386-389 | the display's buffers stay inside their slots and off the heap |
| Firmware.BringUpOrder | h7-cm7/src/main.rs:443-465 | init first; start, bus turnaround, PHY timers and forced RX low power in that order; the frame timer at 10 Hz and its listen last |
| Firmware.TimerInterruptStaysMasked | h7-cm7/src/main.rs:464-466 | the TIM2 interrupt is never unmasked |
| Firmware.ClassifyNumber | h7-cm7/src/main.rs:546-560 | each named exception or interrupt is recognised from its CMSIS number |
| Firmware.NumberClassify | h7-cm7/src/main.rs:546-560 | a recognised number is the number of what it is recognised as, so no two numbers share a name |
| Firmware.UnknownOutsideTable | h7-cm7/src/main.rs:546-560 | exactly the twelve listed numbers are named; every other number is `<Unknown>` |
| TimeSource.ToU8 | cm7/src/time.rs:55-60 | `as u8` keeps the value modulo 256, and keeps it unchanged below 256 |
| TimeSource.ToTimestamp | cm7/src/time.rs:51-64 | no date-time gives all zeros; otherwise year minus 1970 modulo 256, zero-based month and day, and unchanged hours, minutes and seconds |
| TimeSource.TimestampInRange | cm7/src/time.rs:56-60 | month below 12, day below 31, hours below 24, minutes and seconds below 60 |
| TimeSource.DateOfTimestamp | cm7/src/time.rs:55-60 | a date-time of 1970-2225 is recovered from its timestamp |
| TimeSource.TimestampOfDate | cm7/src/time.rs:55-60 | a timestamp denoting a valid date-time is that date-time's timestamp |
| TimeSource.YearWrapsAround | cm7/src/time.rs:55 | years 256 apart get the same year field |
| TimeSource.YearBefore1970 | cm7/src/time.rs:55 | 1969 is recorded as 255 |
| TimeSource.RtcSlot.GetDateTime | cm7/src/time.rs:46-48 | `None` when no RTC is installed, and the RTC's date-time otherwise |
| TimeSource.RtcSlot.SetDateTime | cm7/src/time.rs:36-44 | `Err` exactly when no RTC is installed; after `Ok`, the date-time read back is the one set |
| TimeSource.RtcSlot.GetTimestamp | cm7/src/time.rs:51-64 | the timestamp of the current date-time, and `DEFAULT_TIMESTAMP` when no RTC is installed |

## Left out

- The DSI register masks and the colour-coding constants: the `dsi_consts` module is not part of this model. They are fields of `Dsihost.DsiConsts`, so every result holds for all mask values. Results that depend on a field layout state it in their `requires`.
- The `DSIHOST` register block is split into three objects: the registers `DsiVideoConfig::apply` writes, the video timing registers, and the PHY timing registers. Each `apply` gets its frame from this split. The volatile read and write of each step is one assignment.
- The `assert!` of the video programmer aborts the firmware. `VideoConfig.Apply` returns `false` with every register unchanged instead.
- Hardware I/O is not modelled: clocks and PLLs, power, GPIO, I2C and the PMIC, UART, ADC, FMC/SDRAM initialisation, SD card, QSPI, the ANX7625 bridge, LTDC and DSI initialisation, the LEDs other than the swap toggle, `println!`/`log`, and the memory barriers in `swap`.
- `H7Display` and `LtdcLayer1` are external crates. They are modelled only as much as `swap` uses them:
  - the buffer addresses and the exchange of roles;
  - the layer's scan-out address, enable flag and pending flag.
- Display.Gpu.constructor: which buffer `H7Display::new` makes the front one, after the two `swap_buffers` calls in the entry point, is a parameter. So are the layer's pending flag and the LED state at construction.
- The display hardware clears the pending flag at the vertical blank. This is the separate method `Display.Gpu.VerticalBlank`.
- Pixels are taken to be 2 bytes (Rgb565), with no padding in `FrameBuffer`. `h7_display` is not part of this model.
- Critical sections (`interrupt_free`, `interrupt::free`) and concurrency between interrupts and the main loop are not modelled. Each handler or access runs atomically.
- The `crc` crate's table-driven implementation is not modelled. The checksum is defined bit-serially from the catalogue parameters of CRC-32/MPEG-2.
- The packer's command-line arguments and its file reads and writes are not modelled. The input is the byte sequence read; the output is the array that would be written.
- The menu that runs a command is outside the model. Whether it reports an error is a parameter of each main-loop pass.
- The capacity of the terminal input FIFO is not modelled: `terminal.rs` is not part of this model. The FIFO is an unbounded sequence.
- The 10 ms delay before draining the FIFO is not modelled. Draining empties whatever is queued at that point.
- The LED blinking at the end of each main-loop pass is not modelled.
- `mem::HEAP_SIZE`'s value is not shown. The layout lemmas hold for any heap size.
- `DefaultHandler` panics. Only the name it reports is modelled (`Firmware.IrqName`).
- The RTC driver's own behaviour is not modelled. `Rtc::set_date_time` stores the value; `date_time()` returns what is stored, absent until set.
- The `chrono` leap-second representation is not modelled. Seconds are 0 to 59.

## Findings

| source | as written | input that shows it | evidently intended | confidence | as-written member | corrected member |
|---|---|---|---|---|---|---|
| cm7/src/dsi/phy_timer_config.rs:62-64 | the stop-wait time is OR-ed into PCONFR unshifted, after clearing SW_TIME (bits 8-15) | `StopWaitTime = 10` from a zeroed PCONFR: SW_TIME reads 0, and 10 lands in the low byte | `StopWaitTime << 8`, as in the HAL line the code ports (line 61) | medium, not executed | PhyTimer.PconfrStopWaitMisplaced | PhyTimer.PconfrIntendedReadsBack |
| h7-cm7/src/main.rs:511-513 | on invalid UTF-8 the error is reported but `cmd_buf_len` is not reset, so the bytes stay in the buffer | a byte 0xFF typed, then a line feed: every later line feed decodes the same invalid buffer and no command ever runs again | `cmd_buf_len = 0` in the error arm, as after a command (line 508) | medium, not executed | Terminal.InvalidByteWedgesLine | Terminal.IntendedRecoversFromInvalidLine |
