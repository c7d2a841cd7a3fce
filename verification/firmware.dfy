/** The parts of the firmware entry point that are not hardware plumbing: where the frame
    buffers and the heap sit in SDRAM, the order in which the DSI host is brought up, and
    the name table of the default interrupt handler. */
module Firmware {
  import opened Display

  /** The start addresses the entry point derives from the SDRAM base. */
  datatype SdramLayout = SdramLayout(fb0: nat, fb1: nat, heap: nat)

  /** Frame buffer 0 at the base, frame buffer 1 right after it, the heap after both. */
  function Layout(sdramBase: nat): SdramLayout
  {
    SdramLayout(sdramBase, sdramBase + FRAME_BUFFER_SIZE, sdramBase + FRAME_BUFFER_ALLOC_SIZE)
  }

  /** The byte ranges `[a, a + aLen)` and `[b, b + bLen)` share no byte. */
  predicate Disjoint(a: nat, aLen: nat, b: nat, bLen: nat)
  {
    a + aLen <= b || b + bLen <= a
  }

  /** The two frame buffers and a heap of any size are pairwise disjoint and follow one
      another with no gap. */
  lemma LayoutDisjointContiguous(sdramBase: nat, heapSize: nat)
    ensures Layout(sdramBase).fb0 == sdramBase
    ensures Layout(sdramBase).fb1 == Layout(sdramBase).fb0 + FRAME_BUFFER_SIZE
    ensures Layout(sdramBase).heap == Layout(sdramBase).fb1 + FRAME_BUFFER_SIZE
    ensures Disjoint(Layout(sdramBase).fb0, FRAME_BUFFER_SIZE, Layout(sdramBase).fb1, FRAME_BUFFER_SIZE)
    ensures Disjoint(Layout(sdramBase).fb0, FRAME_BUFFER_SIZE, Layout(sdramBase).heap, heapSize)
    ensures Disjoint(Layout(sdramBase).fb1, FRAME_BUFFER_SIZE, Layout(sdramBase).heap, heapSize)
  {
    AllocHoldsTwoFrames();
  }

  /** The square buffers the display actually draws into stay inside their slots: neither
      reaches the other buffer or the heap. */
  lemma DisplayBuffersInsideSlots(sdramBase: nat, heapSize: nat)
    ensures Disjoint(Layout(sdramBase).fb0, DISPLAY_FRAME_SIZE, Layout(sdramBase).fb1, DISPLAY_FRAME_SIZE)
    ensures Disjoint(Layout(sdramBase).fb1, DISPLAY_FRAME_SIZE, Layout(sdramBase).heap, heapSize)
  {
    DisplayFrameFitsSlot();
    AllocHoldsTwoFrames();
  }

  /** The PHY timer values the entry point passes to the DSI host. */
  datatype DsiPhyTimers = DsiPhyTimers(datalineHs2lp: nat, datalineLp2hs: nat, clockHs2lp: nat,
                                       clockLp2hs: nat, datalineMaxReadTime: nat, stopWaitTime: nat)

  /** The calls the entry point makes to bring up the DSI link and the frame timer. */
  datatype BringUpCall =
    | Init
    | SetCommandModeTransmissionKind(allInLowPower: bool)
    | Start
    | EnableBusTurnAround
    | ConfigurePhyTimers(timers: DsiPhyTimers)
    | ForceRxLowPower(on: bool)
    | StartFrameTimer(hz: nat)
    | ListenTimeout
    | UnmaskTimerInterrupt

  const FRAME_RATE: nat := 30

  /** The calls in the order the entry point makes them. Unmasking the TIM2 interrupt is
      not among them. */
  const BRING_UP: seq<BringUpCall> := [
    Init,
    SetCommandModeTransmissionKind(true),
    Start,
    EnableBusTurnAround,
    ConfigurePhyTimers(DsiPhyTimers(35, 35, 35, 35, 0, 10)),
    ForceRxLowPower(true),
    StartFrameTimer(FRAME_RATE / 3),
    ListenTimeout
  ]

  /** `a` occurs in `calls` before `b` does. */
  predicate Precedes(calls: seq<BringUpCall>, a: BringUpCall, b: BringUpCall)
  {
    exists i, j :: 0 <= i < j < |calls| && calls[i] == a && calls[j] == b
  }

  /** The link is started, then bus turnaround is enabled, then the PHY timers are
      programmed, then the receive path is forced to low power, and the frame timer comes
      last. */
  lemma BringUpOrder()
    ensures BRING_UP[0] == Init
    ensures Precedes(BRING_UP, Start, EnableBusTurnAround)
    ensures Precedes(BRING_UP, EnableBusTurnAround, ConfigurePhyTimers(DsiPhyTimers(35, 35, 35, 35, 0, 10)))
    ensures Precedes(BRING_UP, ConfigurePhyTimers(DsiPhyTimers(35, 35, 35, 35, 0, 10)), ForceRxLowPower(true))
    ensures Precedes(BRING_UP, ForceRxLowPower(true), StartFrameTimer(10))
    ensures BRING_UP[|BRING_UP| - 2..] == [StartFrameTimer(10), ListenTimeout]
  {
    assert BRING_UP[2] == Start && BRING_UP[3] == EnableBusTurnAround;
    assert BRING_UP[4] == ConfigurePhyTimers(DsiPhyTimers(35, 35, 35, 35, 0, 10));
    assert BRING_UP[5] == ForceRxLowPower(true) && BRING_UP[6] == StartFrameTimer(10);
  }

  /** The frame timer interrupt is never unmasked, so the swap handler is never entered
      after this bring-up. */
  lemma TimerInterruptStaysMasked()
    ensures UnmaskTimerInterrupt !in BRING_UP
  {
  }

  /** The exceptions and interrupts the default handler names, and the rest. */
  datatype Irq =
    | NonMaskableInt | HardFault | MemoryManagement | BusFault | UsageFault | SecureFault
    | SVCall | DebugMonitor | PendSV | SysTick | WwdgStm | PvdStm | Unknown

  /** The interrupt number the default handler receives, classified as its match does. */
  function Classify(irqn: int): Irq
  {
    match irqn
    case -14 => NonMaskableInt
    case -13 => HardFault
    case -12 => MemoryManagement
    case -11 => BusFault
    case -10 => UsageFault
    case -9 => SecureFault
    case -5 => SVCall
    case -4 => DebugMonitor
    case -2 => PendSV
    case -1 => SysTick
    case 0 => WwdgStm
    case 1 => PvdStm
    case _ => Unknown
  }

  /** The number of a named exception or interrupt, in the numbering of CMSIS. */
  function Number(irq: Irq): int
    requires irq != Unknown
  {
    match irq
    case NonMaskableInt => -14
    case HardFault => -13
    case MemoryManagement => -12
    case BusFault => -11
    case UsageFault => -10
    case SecureFault => -9
    case SVCall => -5
    case DebugMonitor => -4
    case PendSV => -2
    case SysTick => -1
    case WwdgStm => 0
    case PvdStm => 1
  }

  /** The name the handler reports. */
  function Name(irq: Irq): string
  {
    match irq
    case NonMaskableInt => "NonMaskableInt_IRQn"
    case HardFault => "HardFault_IRQn"
    case MemoryManagement => "MemoryManagement_IRQn"
    case BusFault => "BusFault_IRQn"
    case UsageFault => "UsageFault_IRQn"
    case SecureFault => "SecureFault_IRQn"
    case SVCall => "SVCall_IRQn"
    case DebugMonitor => "DebugMonitor_IRQn"
    case PendSV => "PendSV_IRQn"
    case SysTick => "SysTick_IRQn"
    case WwdgStm => "WWDG_STM_IRQn"
    case PvdStm => "PVD_STM_IRQn"
    case Unknown => "<Unknown>"
  }

  /** The name `DefaultHandler` reports for the number `irqn`. */
  function IrqName(irqn: int): string
  {
    Name(Classify(irqn))
  }

  /** Each named exception or interrupt is recognised from its own number. */
  lemma ClassifyNumber(irq: Irq)
    requires irq != Unknown
    ensures Classify(Number(irq)) == irq
  {
  }

  /** A recognised number is the number of what it is recognised as, so the handler never
      gives two numbers the same name. */
  lemma NumberClassify(irqn: int)
    requires Classify(irqn) != Unknown
    ensures Number(Classify(irqn)) == irqn
  {
  }

  /** Exactly the numbers -14 to -9, -5, -4, -2, -1, 0 and 1 have a name; every other number
      is reported as unknown. */
  lemma UnknownOutsideTable(irqn: int)
    ensures Classify(irqn) == Unknown <==> irqn !in {-14, -13, -12, -11, -10, -9, -5, -4, -2, -1, 0, 1}
  {
  }
}
