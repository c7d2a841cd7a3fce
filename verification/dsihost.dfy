/** The DSI host register block as the two programmers see it, and the `dsi_consts`
    masks they use.

    The numeric values of the masks are not part of this model: they are carried in a
    `DsiConsts` object that every operation takes as a parameter, so every property
    proved holds for every choice of mask values. */
module Dsihost {

  /** The constants of the `dsi_consts` module: field masks of the DSIHOST registers, the
      18-bit colour coding and the "loosely packed enabled" setting. They never change, so
      every one is a `const`. */
  class DsiConsts {
    const mcrCmdm: bv32
    const wcfgrDsim: bv32
    const wcfgrColmux: bv32
    const vmcrVmt: bv32
    const vmcrLpce: bv32
    const vmcrLphfpe: bv32
    const vmcrLphbpe: bv32
    const vmcrLpvae: bv32
    const vmcrLpvfpe: bv32
    const vmcrLpvbpe: bv32
    const vmcrLpvsae: bv32
    const vmcrFbtaae: bv32
    const vpcrVpsize: bv32
    const vccrNumc: bv32
    const vnpcrNpsize: bv32
    const lvcidrVcid: bv32
    const lpcrDep: bv32
    const lpcrVsp: bv32
    const lpcrHsp: bv32
    const lcolcrColc: bv32
    const lcolcrLpe: bv32
    const vhsacrHsa: bv32
    const vhbpcrHbp: bv32
    const vlcrHline: bv32
    const vvsacrVsa: bv32
    const vvbpcrVbp: bv32
    const vvfpcrVfp: bv32
    const vvacrVa: bv32
    const lpmcrLpsize: bv32
    const lpmcrVlpsize: bv32
    const cltcrLp2hsTime: bv32
    const cltcrHs2lpTime: bv32
    const dltcrMrdTime: bv32
    const dltcrLp2hsTime: bv32
    const dltcrHs2lpTime: bv32
    const pconfrSwTime: bv32
    const rgb666: bv32
    const looselyPackedEnable: bv32
  }

  /** The memory-mapped DSIHOST register block, each register a field written in place.

      The block is one peripheral; the model keeps its video timing registers and its PHY
      timing registers in two objects of their own, so that a programmer that touches only
      one group says so in its `modifies` clause. */
  class Registers {
    var mcr: bv32
    var wcfgr: bv32
    var vmcr: bv32
    var vpcr: bv32
    var vccr: bv32
    var vnpcr: bv32
    var lvcidr: bv32
    var lpcr: bv32
    var lcolcr: bv32
    var lpmcr: bv32

    /** VHSACR, VHBPCR, VLCR, VVSACR, VVBPCR, VVFPCR and VVACR. */
    const timing: VideoTiming
    /** CLTCR, DLTCR and PCONFR. */
    const phy: PhyTiming

    /** The reset state: every register reads zero. */
    constructor ()
      ensures mcr == wcfgr == vmcr == vpcr == vccr == vnpcr == lvcidr == lpcr == lcolcr == lpmcr == 0
      ensures timing.vhsacr == timing.vhbpcr == timing.vlcr == timing.vvsacr == timing.vvbpcr == timing.vvfpcr == timing.vvacr == 0
      ensures phy.cltcr == phy.dltcr == phy.pconfr == 0
      ensures fresh(timing) && fresh(phy)
    {
      mcr, wcfgr, vmcr, vpcr, vccr, vnpcr, lvcidr, lpcr, lcolcr, lpmcr := 0, 0, 0, 0, 0, 0, 0, 0, 0, 0;
      timing := new VideoTiming();
      phy := new PhyTiming();
    }
  }

  /** The video timing registers of the DSIHOST block. */
  class VideoTiming {
    var vhsacr: bv32
    var vhbpcr: bv32
    var vlcr: bv32
    var vvsacr: bv32
    var vvbpcr: bv32
    var vvfpcr: bv32
    var vvacr: bv32

    constructor ()
      ensures vhsacr == vhbpcr == vlcr == vvsacr == vvbpcr == vvfpcr == vvacr == 0
    {
      vhsacr, vhbpcr, vlcr, vvsacr, vvbpcr, vvfpcr, vvacr := 0, 0, 0, 0, 0, 0, 0;
    }
  }

  /** The D-PHY timing registers of the DSIHOST block. */
  class PhyTiming {
    var cltcr: bv32
    var dltcr: bv32
    var pconfr: bv32

    constructor ()
      ensures cltcr == dltcr == pconfr == 0
    {
      cltcr, dltcr, pconfr := 0, 0, 0;
    }
  }
}
