/** The double-buffered frame-swap controller of the display: the GPU object that owns
    the two frame buffers and the LTDC layer scanning one of them out, and the timer
    interrupt that asks it to swap.

    Buffers are identified by their addresses. The pending flag is the layer's
    "reload at the next vertical blank" request: programming a new scan-out address
    sets it, and the display hardware clears it at the vertical blank, which the model
    shows as the separate method `Gpu.VerticalBlank`. */
module Display {

  const SCREEN_WIDTH: nat := 1024
  const SCREEN_HEIGHT: nat := 768

  /** Bytes per Rgb565 pixel. */
  const PIXEL_BYTES: nat := 2

  /** Bytes taken by a frame buffer of `width` by `height` Rgb565 pixels. */
  function FrameBytes(width: nat, height: nat): nat
  {
    width * height * PIXEL_BYTES
  }

  const FRAME_BUFFER_SIZE: nat := FrameBytes(SCREEN_WIDTH, SCREEN_HEIGHT)
  const FRAME_BUFFER_ALLOC_SIZE: nat := FRAME_BUFFER_SIZE * 2

  /** The size of one buffer of the display type the GPU actually holds, which is
      instantiated with `SCREEN_HEIGHT` for both of its dimensions. */
  const DISPLAY_FRAME_SIZE: nat := FrameBytes(SCREEN_HEIGHT, SCREEN_HEIGHT)

  /** The allocation holds exactly two full-screen frame buffers. */
  lemma AllocHoldsTwoFrames()
    ensures FRAME_BUFFER_ALLOC_SIZE == 2 * FRAME_BUFFER_SIZE
    ensures FRAME_BUFFER_SIZE == SCREEN_WIDTH * SCREEN_HEIGHT * PIXEL_BYTES
  {
  }

  /** The square buffers the display type uses are smaller than the slots reserved for
      them, so neither of them runs into the next slot. A square buffer is stored row after
      row from the start of its slot, so the slot's last 256 * 768 pixels (393,216 bytes)
      are never drawn. */
  lemma DisplayFrameFitsSlot()
    ensures DISPLAY_FRAME_SIZE < FRAME_BUFFER_SIZE
    ensures FRAME_BUFFER_SIZE - DISPLAY_FRAME_SIZE == (SCREEN_WIDTH - SCREEN_HEIGHT) * SCREEN_HEIGHT * PIXEL_BYTES
  {
  }

  /** The observable state of the GPU: which buffer is shown and which is drawn into,
      the address the layer is programmed with, whether the layer is enabled, its
      pending flag, and the blue LED. */
  datatype GpuState = GpuState(front: nat, back: nat, layerAddr: nat, layerEnabled: bool,
                               pending: bool, blueLed: bool)
  {
    /** Front and back are distinct buffers, and the layer scans out the front one. */
    predicate Coherent()
    {
      front != back && layerAddr == front && layerEnabled
    }
  }

  /** One call of `swap`: nothing while the layer still has a swap pending; otherwise
      front and back change roles, the layer is given the new front buffer (which sets
      its pending flag) and the blue LED toggles. */
  function SwapStep(s: GpuState): GpuState
  {
    if s.pending then s
    else s.(front := s.back, back := s.front, layerAddr := s.back, pending := true, blueLed := !s.blueLed)
  }

  /** What can happen to the GPU: a frame-timer tick, which calls `swap`, or a vertical
      blank, at which the layer takes the new address and drops its pending flag. */
  datatype Event = Tick | VerticalBlank

  function Step(s: GpuState, e: Event): GpuState
  {
    match e
    case Tick => SwapStep(s)
    case VerticalBlank => s.(pending := false)
  }

  /** The state after the events `es`, in order. */
  function Run(s: GpuState, es: seq<Event>): GpuState
    decreases |es|
  {
    if es == [] then s else Run(Step(s, es[0]), es[1..])
  }

  /** How many ticks of `es` find no swap pending, and so swap. */
  function Swaps(s: GpuState, es: seq<Event>): nat
    decreases |es|
  {
    if es == [] then 0
    else (if es[0] == Tick && !s.pending then 1 else 0) + Swaps(Step(s, es[0]), es[1..])
  }

  /** `n` frame-timer ticks in a row. */
  function Ticks(n: nat): (es: seq<Event>)
    ensures |es| == n
    ensures forall i :: 0 <= i < n ==> es[i] == Tick
  {
    if n == 0 then [] else [Tick] + Ticks(n - 1)
  }

  /** `n` frames: in each, a frame-timer tick followed by the vertical blank that clears
      the pending flag. */
  function Frames(n: nat): (es: seq<Event>)
    ensures |es| == 2 * n
    ensures forall i :: 0 <= i < |es| ==> es[i] == (if i % 2 == 0 then Tick else VerticalBlank)
  {
    if n == 0 then []
    else
      var rest := Frames(n - 1);
      assert forall i :: 2 <= i < 2 * n ==> i % 2 == (i - 2) % 2;
      [Tick, VerticalBlank] + rest
  }

  /** A swap exchanges the roles of the two buffers and never introduces a third one, and
      the layer keeps scanning out the front buffer. */
  lemma SwapKeepsCoherent(s: GpuState)
    requires s.Coherent()
    ensures SwapStep(s).Coherent()
    ensures {SwapStep(s).front, SwapStep(s).back} == {s.front, s.back}
  {
  }

  /** Over any sequence of events, front and back stay the same two distinct buffers and
      the layer is always programmed with the front one. */
  lemma {:induction false} RunKeepsCoherent(s: GpuState, es: seq<Event>)
    requires s.Coherent()
    ensures Run(s, es).Coherent()
    ensures {Run(s, es).front, Run(s, es).back} == {s.front, s.back}
    decreases |es|
  {
    if es != [] {
      var t := Step(s, es[0]);
      assert t.Coherent() && {t.front, t.back} == {s.front, s.back} by {
        if es[0] == Tick {
          SwapKeepsCoherent(s);
        }
      }
      RunKeepsCoherent(t, es[1..]);
    }
  }

  /** While the layer keeps its swap pending, any number of ticks changes nothing. */
  lemma {:induction false} PendingBlocksSwaps(s: GpuState, n: nat)
    requires s.pending
    ensures Run(s, Ticks(n)) == s
    decreases n
  {
    if n > 0 {
      assert Ticks(n)[1..] == Ticks(n - 1);
      PendingBlocksSwaps(s, n - 1);
    }
  }

  /** The buffer shown after any sequence of events is decided by the parity of the number
      of swaps that happened: an even number restores the original assignment. */
  lemma {:induction false} FrontFollowsSwapParity(s: GpuState, es: seq<Event>)
    ensures Run(s, es).front == (if Swaps(s, es) % 2 == 0 then s.front else s.back)
    ensures Run(s, es).back == (if Swaps(s, es) % 2 == 0 then s.back else s.front)
    decreases |es|
  {
    if es != [] {
      FrontFollowsSwapParity(Step(s, es[0]), es[1..]);
    }
  }

  /** The blue LED toggles exactly once per successful swap, and not on a pending no-op
      or a vertical blank. */
  lemma {:induction false} LedCountsSwaps(s: GpuState, es: seq<Event>)
    ensures Run(s, es).blueLed == (s.blueLed != (Swaps(s, es) % 2 == 1))
    decreases |es|
  {
    if es != [] {
      LedCountsSwaps(Step(s, es[0]), es[1..]);
    }
  }

  /** Two ticks with the pending flag cleared between them restore the original buffers,
      and the layer then scans out the original front buffer again. */
  lemma TwoSwapsRestore(s: GpuState)
    requires !s.pending
    ensures Run(s, [Tick, VerticalBlank, Tick]).front == s.front
    ensures Run(s, [Tick, VerticalBlank, Tick]).back == s.back
    ensures Run(s, [Tick, VerticalBlank, Tick]).layerAddr == s.front
  {
    var es := [Tick, VerticalBlank, Tick];
    assert es[1..] == [VerticalBlank, Tick] && es[1..][1..] == [Tick] && es[1..][1..][1..] == [];
  }

  /** Over `n` frames, every tick finds no swap pending: exactly `n` swaps happen, and no
      swap is left pending after the last vertical blank. */
  lemma {:induction false} NSwapsAlternate(s: GpuState, n: nat)
    requires !s.pending
    ensures Swaps(s, Frames(n)) == n
    ensures !Run(s, Frames(n)).pending
    decreases n
  {
    if n > 0 {
      var es := Frames(n);
      assert es[0] == Tick && es[1..][0] == VerticalBlank && es[1..][1..] == Frames(n - 1);
      var t := Step(Step(s, Tick), VerticalBlank);
      NSwapsAlternate(t, n - 1);
    }
  }

  /** After `n` frames the buffers have strictly alternated: the original front buffer is
      shown again exactly when `n` is even, and the layer scans out the buffer shown. */
  lemma FramesAlternate(s: GpuState, n: nat)
    requires !s.pending
    ensures Run(s, Frames(n)).front == (if n % 2 == 0 then s.front else s.back)
    ensures Run(s, Frames(n)).back == (if n % 2 == 0 then s.back else s.front)
  {
    NSwapsAlternate(s, n);
    FrontFollowsSwapParity(s, Frames(n));
  }

  /** The GPU object: the display's two buffers, the layer and, for the toggle in `swap`,
      the blue LED. */
  class Gpu {
    var front: nat
    var back: nat
    var layerAddr: nat
    var layerEnabled: bool
    var pending: bool
    var blueLed: bool

    function State(): GpuState
      reads this
    {
      GpuState(front, back, layerAddr, layerEnabled, pending, blueLed)
    }

    /** Takes a display whose buffers are `displayFront` and `displayBack` and enables the
        layer on the display's front buffer. The layer's pending flag and the LED are
        whatever the hardware holds. */
    constructor (displayFront: nat, displayBack: nat, layerPending: bool, led: bool)
      requires displayFront != displayBack
      ensures State() == GpuState(displayFront, displayBack, displayFront, true, layerPending, led)
      ensures State().Coherent()
    {
      front, back := displayFront, displayBack;
      layerAddr, layerEnabled := displayFront, true;
      pending, blueLed := layerPending, led;
    }

    /** `swap`: unless the layer reports a swap pending, exchange the buffers, give the
        layer the new front buffer and toggle the blue LED. */
    method Swap()
      modifies this
      ensures State() == SwapStep(old(State()))
    {
      if !pending {
        front, back := back, front;
        layerAddr := front;
        pending := true;
        blueLed := !blueLed;
      }
    }

    /** The display hardware reaching the vertical blank: the layer takes the address it
        was given and clears its pending flag. */
    method VerticalBlank()
      modifies this
      ensures State() == Step(old(State()), Event.VerticalBlank)
    {
      pending := false;
    }
  }

  /** The global cell the GPU is installed into; `null` until it is. */
  class GpuCell {
    var gpu: Gpu?

    constructor ()
      ensures gpu == null
    {
      gpu := null;
    }

    method Install(g: Gpu)
      modifies this
      ensures gpu == g
    {
      gpu := g;
    }
  }

  /** The status register of timer 2, reduced to its update-interrupt flag. */
  class Timer2 {
    var updateFlag: bool
  }

  /** The TIM2 interrupt handler: swap the frame buffers if a GPU is installed, and clear
      the timer's update flag in either case. */
  method Tim2(cell: GpuCell, timer: Timer2)
    modifies timer, if cell.gpu != null then {cell.gpu} else {}
    ensures !timer.updateFlag
    ensures cell.gpu != null ==> cell.gpu.State() == SwapStep(old(cell.gpu.State()))
  {
    if cell.gpu != null {
      cell.gpu.Swap();
    }
    timer.updateFlag := false;
  }
}
