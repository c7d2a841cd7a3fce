/** The D-PHY timer programmer, `DsiPhyTimerConfig::apply`: the clock-lane and data-lane
    transition times and the stop-wait time, written into CLTCR, DLTCR and PCONFR with
    clear-then-set step pairs. */
module PhyTimer {
  import opened RegisterBits
  import opened Dsihost

  /** A `DsiPhyTimerConfig`, in lane byte clock cycles. It is never changed once built. */
  class PhyTimerConfig {
    const clockLaneHs2lpTime: bv32
    const clockLaneLp2hsTime: bv32
    const dataLaneHs2lpTime: bv32
    const dataLaneLp2hsTime: bv32
    const dataLaneMaxReadTime: bv32
    const stopWaitTime: bv32

    constructor (clockHs2lp: bv32, clockLp2hs: bv32, dataHs2lp: bv32, dataLp2hs: bv32,
                 maxRead: bv32, stopWait: bv32)
      ensures clockLaneHs2lpTime == clockHs2lp && clockLaneLp2hsTime == clockLp2hs
      ensures dataLaneHs2lpTime == dataHs2lp && dataLaneLp2hsTime == dataLp2hs
      ensures dataLaneMaxReadTime == maxRead && stopWaitTime == stopWait
    {
      clockLaneHs2lpTime, clockLaneLp2hsTime := clockHs2lp, clockLp2hs;
      dataLaneHs2lpTime, dataLaneLp2hsTime := dataHs2lp, dataLp2hs;
      dataLaneMaxReadTime, stopWaitTime := maxRead, stopWait;
    }
  }

  /** The longer of the two clock-lane transition times (unsigned comparison); the clock
      lane is given this one time for both directions. */
  function MaxTime(c: PhyTimerConfig): (t: bv32)
    ensures t >= c.clockLaneLp2hsTime && t >= c.clockLaneHs2lpTime
    ensures t == c.clockLaneLp2hsTime || t == c.clockLaneHs2lpTime
  {
    if c.clockLaneLp2hsTime > c.clockLaneHs2lpTime then c.clockLaneLp2hsTime else c.clockLaneHs2lpTime
  }

  /** CLTCR: both clock-lane fields cleared, then the longer time OR-ed into the low half
      and, shifted by 16, into the high half. */
  function CltcrConfigured(k: DsiConsts, c: PhyTimerConfig, x: bv32): bv32
  {
    Field(k.cltcrLp2hsTime | k.cltcrHs2lpTime, MaxTime(c) | (MaxTime(c) << 16)).Apply(x)
  }

  /** DLTCR: the three data-lane fields cleared, then the maximum read time, the LP-to-HS
      time shifted by 16 and the HS-to-LP time shifted by 24 OR-ed in. */
  function DltcrConfigured(k: DsiConsts, c: PhyTimerConfig, x: bv32): bv32
  {
    Field(k.dltcrMrdTime | k.dltcrLp2hsTime | k.dltcrHs2lpTime,
          c.dataLaneMaxReadTime | (c.dataLaneLp2hsTime << 16) | (c.dataLaneHs2lpTime << 24)).Apply(x)
  }

  /** PCONFR as the firmware writes it: SW_TIME cleared, then the stop-wait time OR-ed in
      without a shift. */
  function PconfrConfigured(k: DsiConsts, c: PhyTimerConfig, x: bv32): bv32
  {
    Field(k.pconfrSwTime, c.stopWaitTime).Apply(x)
  }

  /** PCONFR as the ported HAL code writes it: the stop-wait time shifted to bit 8, where
      SW_TIME lies. */
  function PconfrIntended(k: DsiConsts, c: PhyTimerConfig, x: bv32): bv32
  {
    Field(k.pconfrSwTime, c.stopWaitTime << 8).Apply(x)
  }

  /** `DsiPhyTimerConfig::apply`. Only the three PHY timing registers change. */
  method Apply(c: PhyTimerConfig, k: DsiConsts, host: Registers)
    modifies host.phy
    ensures host.phy.cltcr == CltcrConfigured(k, c, old(host.phy.cltcr))
    ensures host.phy.dltcr == DltcrConfigured(k, c, old(host.phy.dltcr))
    ensures host.phy.pconfr == PconfrConfigured(k, c, old(host.phy.pconfr))
    ensures unchanged(host, host.timing)
  {
    var maxTime := if c.clockLaneLp2hsTime > c.clockLaneHs2lpTime then c.clockLaneLp2hsTime
                   else c.clockLaneHs2lpTime;
    SetClockLaneTimes(maxTime | (maxTime << 16), k, host.phy);
    SetDataLaneTimes(c, k, host.phy);
    SetStopWaitTime(c, k, host.phy);
  }

  /** CLTCR: `times` holds the one clock-lane time in both halves. */
  method SetClockLaneTimes(times: bv32, k: DsiConsts, phy: PhyTiming)
    modifies phy`cltcr
    ensures phy.cltcr == Field(k.cltcrLp2hsTime | k.cltcrHs2lpTime, times).Apply(old(phy.cltcr))
  {
    phy.cltcr := phy.cltcr & !(k.cltcrLp2hsTime | k.cltcrHs2lpTime);
    phy.cltcr := phy.cltcr | times;
  }

  /** DLTCR: the three data-lane times. */
  method SetDataLaneTimes(c: PhyTimerConfig, k: DsiConsts, phy: PhyTiming)
    modifies phy`dltcr
    ensures phy.dltcr == DltcrConfigured(k, c, old(phy.dltcr))
  {
    phy.dltcr := phy.dltcr & !(k.dltcrMrdTime | k.dltcrLp2hsTime | k.dltcrHs2lpTime);
    phy.dltcr := phy.dltcr | (c.dataLaneMaxReadTime | (c.dataLaneLp2hsTime << 16) | (c.dataLaneHs2lpTime << 24));
  }

  /** PCONFR: the stop-wait time, OR-ed in unshifted. */
  method SetStopWaitTime(c: PhyTimerConfig, k: DsiConsts, phy: PhyTiming)
    modifies phy`pconfr
    ensures phy.pconfr == PconfrConfigured(k, c, old(phy.pconfr))
  {
    phy.pconfr := phy.pconfr & !k.pconfrSwTime;
    phy.pconfr := phy.pconfr | c.stopWaitTime;
  }

  /** When HS2LP_TIME is LP2HS_TIME moved up by 16 bits (on the STM32H7, LP2HS_TIME is
      bits 9 to 0 and HS2LP_TIME bits 25 to 16) and the longer time fits the field, the two
      halves of CLTCR agree: asymmetric inputs become symmetric. */
  lemma CltcrHalvesAgree(k: DsiConsts, c: PhyTimerConfig, x: bv32)
    requires k.cltcrHs2lpTime == k.cltcrLp2hsTime << 16 && k.cltcrLp2hsTime & 0xFFFF_0000 == 0
    requires Fits(MaxTime(c), k.cltcrLp2hsTime)
    ensures (CltcrConfigured(k, c, x) & k.cltcrHs2lpTime) >> 16 == CltcrConfigured(k, c, x) & k.cltcrLp2hsTime
  {
  }

  /** With the same field layout, LP2HS_TIME, the low half of CLTCR, holds the longer
      clock-lane time. */
  lemma CltcrHoldsMaxTime(k: DsiConsts, c: PhyTimerConfig, x: bv32)
    requires k.cltcrHs2lpTime == k.cltcrLp2hsTime << 16 && k.cltcrLp2hsTime & 0xFFFF_0000 == 0
    requires Fits(MaxTime(c), k.cltcrLp2hsTime)
    ensures CltcrConfigured(k, c, x) & k.cltcrLp2hsTime == MaxTime(c)
  {
  }

  /** The STM32H7's own CLTCR masks meet that layout: both halves then hold the longer
      time. */
  lemma CltcrDeviceLayout(k: DsiConsts, c: PhyTimerConfig, x: bv32)
    requires k.cltcrLp2hsTime == 0x3FF && k.cltcrHs2lpTime == 0x3FF_0000
    requires MaxTime(c) <= 0x3FF
    ensures CltcrConfigured(k, c, x) & 0x3FF == MaxTime(c)
    ensures (CltcrConfigured(k, c, x) & 0x3FF_0000) >> 16 == MaxTime(c)
  {
    CltcrHalvesAgree(k, c, x);
    CltcrHoldsMaxTime(k, c, x);
  }

  /** The bits of CLTCR outside its two fields keep their value when the OR-ed value stays
      inside them. */
  lemma CltcrKeepsOtherBits(k: DsiConsts, c: PhyTimerConfig, x: bv32)
    requires Fits(MaxTime(c) | (MaxTime(c) << 16), k.cltcrLp2hsTime | k.cltcrHs2lpTime)
    ensures CltcrConfigured(k, c, x) & !(k.cltcrLp2hsTime | k.cltcrHs2lpTime)
         == x & !(k.cltcrLp2hsTime | k.cltcrHs2lpTime)
  {
  }

  /** DLTCR's three fields read back the un-maximised data-lane times at bits 0, 16 and 24
      when that value fits them. */
  lemma DltcrHoldsDataLaneTimes(k: DsiConsts, c: PhyTimerConfig, x: bv32)
    requires Fits(c.dataLaneMaxReadTime | (c.dataLaneLp2hsTime << 16) | (c.dataLaneHs2lpTime << 24),
                  k.dltcrMrdTime | k.dltcrLp2hsTime | k.dltcrHs2lpTime)
    ensures DltcrConfigured(k, c, x) & (k.dltcrMrdTime | k.dltcrLp2hsTime | k.dltcrHs2lpTime)
         == c.dataLaneMaxReadTime | (c.dataLaneLp2hsTime << 16) | (c.dataLaneHs2lpTime << 24)
  {
  }

  /** Starting from a zeroed CLTCR, the asymmetric clock-lane times 35 (HS to LP) and 20
      (LP to HS) write the longer, 35, into both halves, whatever the masks. */
  lemma CltcrExampleValues(k: DsiConsts, c: PhyTimerConfig)
    requires c.clockLaneHs2lpTime == 35 && c.clockLaneLp2hsTime == 20
    ensures CltcrConfigured(k, c, 0) == 35 | (35 << 16)
  {
  }

  /** Starting from a zeroed DLTCR, data-lane times 35 and 35 and maximum read time 0 give
      35 at bit 16 and 35 at bit 24. */
  lemma DltcrExampleValues(k: DsiConsts, c: PhyTimerConfig)
    requires c.dataLaneHs2lpTime == 35 && c.dataLaneLp2hsTime == 35 && c.dataLaneMaxReadTime == 0
    ensures DltcrConfigured(k, c, 0) == (35 << 16) | (35 << 24)
  {
  }

  /** Programming CLTCR a second time with the same configuration changes nothing. */
  lemma CltcrIdempotent(k: DsiConsts, c: PhyTimerConfig, x: bv32)
    ensures CltcrConfigured(k, c, CltcrConfigured(k, c, x)) == CltcrConfigured(k, c, x)
  {
  }

  /** Programming DLTCR a second time changes nothing. */
  lemma DltcrIdempotent(k: DsiConsts, c: PhyTimerConfig, x: bv32)
    ensures DltcrConfigured(k, c, DltcrConfigured(k, c, x)) == DltcrConfigured(k, c, x)
  {
  }

  /** Programming PCONFR a second time changes nothing. */
  lemma PconfrIdempotent(k: DsiConsts, c: PhyTimerConfig, x: bv32)
    ensures PconfrConfigured(k, c, PconfrConfigured(k, c, x)) == PconfrConfigured(k, c, x)
  {
  }

  /** With SW_TIME at bits 8 to 15, as on the STM32H7, a stop-wait time of 10 never
      reaches the field: from a zeroed PCONFR, SW_TIME reads 0. */
  lemma PconfrStopWaitMisplaced(k: DsiConsts, c: PhyTimerConfig)
    requires k.pconfrSwTime == 0xFF00 && c.stopWaitTime == 10
    ensures PconfrConfigured(k, c, 0) & k.pconfrSwTime == 0
  {
  }

  /** The same setting lands in the low bits instead, where the number-of-lanes field
      lies. */
  lemma PconfrStopWaitInLowBits(k: DsiConsts, c: PhyTimerConfig)
    requires k.pconfrSwTime == 0xFF00 && c.stopWaitTime == 10
    ensures PconfrConfigured(k, c, 0) & 0xFF == 10
  {
  }

  /** The intended write: whenever the stop-wait time fits the 8-bit field, SW_TIME at bits
      8 to 15 reads it back... */
  lemma PconfrIntendedReadsBack(k: DsiConsts, c: PhyTimerConfig, x: bv32)
    requires k.pconfrSwTime == 0xFF00 && c.stopWaitTime < 0x100
    ensures (PconfrIntended(k, c, x) & k.pconfrSwTime) >> 8 == c.stopWaitTime
  {
  }

  /** ...and no other bit of PCONFR changes. */
  lemma PconfrIntendedKeepsOtherBits(k: DsiConsts, c: PhyTimerConfig, x: bv32)
    requires k.pconfrSwTime == 0xFF00 && c.stopWaitTime < 0x100
    ensures PconfrIntended(k, c, x) & !k.pconfrSwTime == x & !k.pconfrSwTime
  {
  }
}
